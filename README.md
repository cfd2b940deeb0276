# ReactPhysics3D: ball-and-socket joint and collision-detection bookkeeping

This project is a model, in Dafny, of two parts of the ReactPhysics3D rigid-body library, with proofs of their properties.

1. **The ball-and-socket joint** (`src/constraint/BallAndSocketJoint.cpp`). This joint keeps one anchor point of two rigid bodies together. In each step the constraint solver calls four methods on it:
   - `initBeforeSolve` computes the body indices, world-space anchors, inertia tensors, the inverse effective mass K⁻¹ and the Baumgarte bias, and resets the accumulated impulse when warm starting is off;
   - `warmstart` applies the impulse from the previous step;
   - `solveVelocityConstraint` runs one sequential-impulse iteration;
   - `solvePositionConstraint` runs one non-linear Gauss-Seidel position correction.

   These methods update the solver's shared per-step arrays in place. The joint is therefore modelled as a class over `array`s: `BallAndSocket.BallAndSocketJoint` with `ConstraintSolverData` and `RigidBody`. Each method's postcondition ties the new arrays and fields to pure functions in `JointDynamics`. The lemmas there then say what those functions mean:
   - K is J M⁻¹ Jᵀ, the joint's response matrix;
   - one velocity iteration makes J v + b = 0;
   - the impulses on the two bodies are equal and opposite, and linear momentum is conserved;
   - disabled bodies do not move;
   - to first order, the Baumgarte bias makes the predicted error C + dt · J v equal to (1 − BETA) · C;
   - the position pass cancels the error to first order.
2. **The collision-detection orchestrator's bookkeeping** (`src/collision/CollisionDetection.h`). This covers four things:
   - the choice between the sphere-vs-sphere and GJK narrow-phase algorithms;
   - the no-collision exclusion set;
   - the overlapping-pair table;
   - the delegation of `addBody`/`removeBody` to the broad phase.

   The model is `Collision.CollisionDetection` with pure set functions as the reference for its methods.

Field names drop the library's `m` prefix: `impulse` is `mImpulse`, `r1World` is `mR1World`, `noCollisionPairs` is `mNoCollisionPairs`, and so on.

The library's `decimal` is modelled as `real`. Three operations used from outside the core are not written out: `Matrix3x3::getInverse`, the quaternion-vector product `q * v` and `Quaternion::normalize`. They are fields of `Mathematics.MathKernel`, which the operations take as a parameter. A lemma that needs `inverse` to invert K says so in its `requires`.

The shared code of `initBeforeSolve` and `solvePositionConstraint` is one helper method, `SetUpJacobianTerms`. It covers the inertia tensors, the world-space anchors and K⁻¹. The second half of the position pass is another helper, `ApplyPositionCorrections`.

## Model

| member | source | states |
|---|---|---|
| JointDynamics.InverseMassBodies | src/constraint/BallAndSocketJoint.cpp:75-81 | the inverse masses accumulated from 0 in code order are the sum of the enabled bodies' inverse masses; see MassMatrixWithCentredAnchors |
| JointDynamics.AngularMassTerm | src/constraint/BallAndSocketJoint.cpp:84-89 | the term [r]× I⁻¹ [r]×ᵀ of one enabled body; its action and symmetry are AngularMassTermResponse and AngularMassTermIsSymmetric |
| JointDynamics.MassMatrix | src/constraint/BallAndSocketJoint.cpp:75-90 | K is the zero matrix when neither body can move; MassMatrixIsResponse proves it is J M⁻¹ Jᵀ |
| JointDynamics.AnchorSeparation | src/constraint/BallAndSocketJoint.cpp:242 | C is the vector that carries body 1's world anchor x1 + r1 onto body 2's, x2 + r2 |
| JointDynamics.BiasVector | src/constraint/BallAndSocketJoint.cpp:98-103 | b is zero unless the technique is Baumgarte, where dt · b = BETA · C |
| JointDynamics.RelativeVelocity | src/constraint/BallAndSocketJoint.cpp:162 | J v carries body 1's anchor velocity v1 + w1 × r1 onto body 2's, v2 + w2 × r2 |
| JointDynamics.ConstraintVelocity | src/constraint/BallAndSocketJoint.cpp:152-162 | J v read at the two bodies' indices of the velocity arrays; ImpulseResponse says how an impulse changes it |
| JointDynamics.DeltaLambda | src/constraint/BallAndSocketJoint.cpp:165 | K⁻¹ (−J v − b); VelocityIterationSatisfiesConstraint proves that applying it solves J v = −b |
| JointDynamics.LinearImpulse1 | src/constraint/BallAndSocketJoint.cpp:171 | −λ, the linear impulse on body 1; ImpulsesAreEqualAndOpposite relates it to body 2's |
| JointDynamics.AngularImpulse1 | src/constraint/BallAndSocketJoint.cpp:172 | λ × r1, the angular impulse on body 1; ImpulsesAreEqualAndOpposite shows it is r1 × (−λ) |
| JointDynamics.LinearImpulse2 | src/constraint/BallAndSocketJoint.cpp:181 | λ, the linear impulse on body 2 |
| JointDynamics.AngularImpulse2 | src/constraint/BallAndSocketJoint.cpp:182 | −(λ × r2), the angular impulse on body 2; ImpulsesAreEqualAndOpposite shows it is r2 × λ |
| JointDynamics.ApplyLinearImpulses | src/constraint/BallAndSocketJoint.cpp:168-187 | body 1's then body 2's `v += invMass · P` on enabled bodies; OnlyJointBodiesChange, ImpulseAtJointBodies and LinearMomentumIsConserved state its effect |
| JointDynamics.ApplyAngularImpulses | src/constraint/BallAndSocketJoint.cpp:168-187 | body 1's then body 2's `w += I⁻¹ · L` on enabled bodies; OnlyJointBodiesChange and ImpulseAtJointBodies state its effect |
| JointDynamics.IntegrateOrientation | src/constraint/BallAndSocketJoint.cpp:262 | q + 0.5 (0, w) q, which leaves q as it is when w is zero |
| JointDynamics.ApplyOrientationCorrections | src/constraint/BallAndSocketJoint.cpp:250-278 | body 1's then body 2's orientation update on enabled bodies; OnlyJointBodiesChange and DisabledBodyIsUnchanged state its frame |
| JointDynamics.PositionError | src/constraint/BallAndSocketJoint.cpp:242 | C read at the two bodies' indices of the position array; PseudoVelocityCancelsPositionError says the pass cancels it |
| Mathematics.SkewSymmetricMatrixForCrossProduct | src/constraint/BallAndSocketJoint.cpp:71-72 | the matrix [r]×; SkewSymmetricMatrixIsCrossProduct proves [r]× v = r × v |
| Mathematics.HamiltonProductRules | src/constraint/BallAndSocketJoint.cpp:262 | `Quaternion.Mul` is Hamilton's product: 1 is neutral on both sides and (0, u)(0, v) = (−u · v, u × v) |
| Mathematics.Quaternion.Mul | src/constraint/BallAndSocketJoint.cpp:262 | the quaternion product used by the orientation update; HamiltonProductRules checks it against Hamilton's rules |
| JointDynamics.InverseMassMatrix | src/constraint/BallAndSocketJoint.cpp:92-96 | K⁻¹ is the zero matrix when neither body's motion is enabled |
| JointDynamics.Kick | src/constraint/BallAndSocketJoint.cpp:126-135 | `s[i] += d` only when the body's motion is enabled; every other entry and the length are unchanged |
| JointDynamics.Turn | src/constraint/BallAndSocketJoint.cpp:262-263 | `q := normalize(q + 0.5 (0,w) q)` at index i only when enabled; every other entry unchanged |
| JointDynamics.ImpulsesAreEqualAndOpposite | src/constraint/BallAndSocketJoint.cpp:128-140 | the linear impulse on body 2 is minus that on body 1, and each angular impulse is r × (linear impulse) of its body |
| JointDynamics.LinearMomentumIsConserved | src/constraint/BallAndSocketJoint.cpp:168-187 | for two movable bodies at distinct indices, m1 v1 + m2 v2 is the same after the impulse as before |
| JointDynamics.MomentumChange | src/constraint/BallAndSocketJoint.cpp:175 | a velocity change invMass · p is a momentum change p when m · invMass = 1 |
| JointDynamics.OnlyJointBodiesChange | src/constraint/BallAndSocketJoint.cpp:117-278 | applying an impulse keeps the array lengths and changes no entry other than the two bodies' indices |
| JointDynamics.DisabledBodyIsUnchanged | src/constraint/BallAndSocketJoint.cpp:126-278 | a disabled body's velocity, position and orientation entries stay as they were (unless the other body shares its index and moves) |
| JointDynamics.ImpulseAtJointBodies | src/constraint/BallAndSocketJoint.cpp:126-187 | with distinct indices each body's entry changes by exactly its own velocity change, zero when disabled |
| JointDynamics.AngularMassTermResponse | src/constraint/BallAndSocketJoint.cpp:84-89 | [r]× I⁻¹ [r]×ᵀ λ = r × (I⁻¹ (λ × r)) |
| JointDynamics.Body1AnchorResponse | src/constraint/BallAndSocketJoint.cpp:168-177 | the anchor velocity change of body 1 under the impulse, negated, is invMass λ + r1 × u (zero when disabled) |
| JointDynamics.Body2AnchorResponse | src/constraint/BallAndSocketJoint.cpp:178-187 | the anchor velocity change of body 2 under the impulse is invMass λ + r2 × u (zero when disabled) |
| JointDynamics.RelativeVelocitySplits | src/constraint/BallAndSocketJoint.cpp:162 | J v splits into body 2's anchor velocity plus the negated anchor velocity of body 1 |
| JointDynamics.MassMatrixApply | src/constraint/BallAndSocketJoint.cpp:75-89 | K λ is the summed inverse masses times λ plus the angular term of each enabled body |
| JointDynamics.MassMatrixIsResponse | src/constraint/BallAndSocketJoint.cpp:74-89 | K = J M⁻¹ Jᵀ: the relative anchor velocity produced by the impulse of multiplier λ is K λ |
| JointDynamics.SumOfResponses | src/constraint/BallAndSocketJoint.cpp:75-89 | summing the two bodies' responses gives the diagonal part plus the enabled angular terms |
| JointDynamics.ImpulseResponse | src/constraint/BallAndSocketJoint.cpp:161-187 | with distinct indices, applying the impulse of multiplier λ raises J v by exactly K λ |
| JointDynamics.RelativeVelocityIsLinear | src/constraint/BallAndSocketJoint.cpp:162 | J v is linear in the velocities |
| JointDynamics.VelocityIterationSatisfiesConstraint | src/constraint/BallAndSocketJoint.cpp:161-187 | when `inverse` inverts K, the velocities after one iteration satisfy J v = −b exactly |
| JointDynamics.ImmovablePairIsInert | src/constraint/BallAndSocketJoint.cpp:92-96 | with neither body enabled, deltaLambda is zero and no velocity entry changes, for any multiplier |
| JointDynamics.DisabledBodyActsAsInfiniteMass | src/constraint/BallAndSocketJoint.cpp:75-89 | a disabled body contributes to K as a body with zero inverse mass and zero inverse inertia would |
| JointDynamics.ZeroInertiaHasNoAngularTerm | src/constraint/BallAndSocketJoint.cpp:84-89 | a body with zero inverse inertia adds a zero angular term to K |
| JointDynamics.MassMatrixWithCentredAnchors | src/constraint/BallAndSocketJoint.cpp:75-83 | with both anchors at the centres, K is the enabled inverse masses' sum times the identity |
| JointDynamics.MassMatrixIsSymmetric | src/constraint/BallAndSocketJoint.cpp:84-89 | K is symmetric whenever the two inverse inertia tensors are |
| JointDynamics.AngularMassTermIsSymmetric | src/constraint/BallAndSocketJoint.cpp:84-89 | each angular term [r]× I⁻¹ [r]×ᵀ is symmetric when I⁻¹ is |
| JointDynamics.BaumgarteBiasShrinksError | src/constraint/BallAndSocketJoint.cpp:98-103 | to first order: with BETA = 0.2, a velocity meeting J v = −b makes the predicted error C + dt · J v equal to (1 − BETA) · C (the rotation of the anchors over the step is not accounted for) |
| JointDynamics.PseudoVelocityCancelsPositionError | src/constraint/BallAndSocketJoint.cpp:242-278 | when `inverse` inverts K, the pseudo-velocities of λ = K⁻¹(−C) give J(dx, dθ) = −C |
| Mathematics.SkewSymmetricMatrixIsCrossProduct | src/constraint/BallAndSocketJoint.cpp:70-72 | [r]× v = r × v and [r]×ᵀ v = v × r |
| Mathematics.CongruenceIsSymmetric | src/constraint/BallAndSocketJoint.cpp:84-89 | A M Aᵀ is symmetric when M is |
| Mathematics.ApplyMul | src/constraint/BallAndSocketJoint.cpp:84-89 | (A B) v = A (B v) |
| BallAndSocket.BallAndSocketJoint.constructor | src/constraint/BallAndSocketJoint.cpp:36-42 | the joint starts with a zero accumulated impulse |
| BallAndSocket.BallAndSocketJoint.SetUpJacobianTerms | src/constraint/BallAndSocketJoint.cpp:62-96 | the inertia tensors are the bodies' own, r_k = rotate(q_k, local anchor k), and K⁻¹ = InverseMassMatrix of the two bodies |
| BallAndSocket.BallAndSocketJoint.InitBeforeSolve | src/constraint/BallAndSocketJoint.cpp:50-111 | indices from the body-to-index map, and in range when the data is valid; anchors from the body orientations; K⁻¹ (zero for an immovable pair); b = (BETA/dt) C under Baumgarte, otherwise zero; impulse kept when warm starting is on, otherwise zero |
| BallAndSocket.BallAndSocketJoint.Warmstart | src/constraint/BallAndSocketJoint.cpp:114-146 | the velocity arrays become ApplyLinearImpulses/ApplyAngularImpulses of the accumulated impulse on the old arrays |
| BallAndSocket.BallAndSocketJoint.SolveVelocityConstraint | src/constraint/BallAndSocketJoint.cpp:149-188 | for deltaLambda = K⁻¹(−J v − b) on the old velocities, impulse grows by deltaLambda and the arrays become the impulse applied to the old arrays |
| BallAndSocket.BallAndSocketJoint.SolvePositionConstraint | src/constraint/BallAndSocketJoint.cpp:191-280 | nothing changes unless the technique is non-linear Gauss-Seidel; otherwise anchors come from the array orientations, K⁻¹ is recomputed, and the positions and orientations become the corrections of λ = K⁻¹(−C) applied to the old arrays |
| BallAndSocket.BallAndSocketJoint.ApplyPositionCorrections | src/constraint/BallAndSocketJoint.cpp:250-278 | the positions and orientations become ApplyLinearImpulses/ApplyOrientationCorrections of λ on the old arrays |
| Collision.SelectNarrowPhaseAlgorithm | src/collision/CollisionDetection.h:134-144 | sphere-vs-sphere exactly when both shapes are spheres, GJK exactly when at least one is not |
| Collision.ComputeBodiesIndexPair | src/collision/CollisionDetection.h:163 | the key is the two body identifiers, smaller first (an assumption, see below) |
| Collision.IndexPairIdentifiesUnorderedPair | src/collision/CollisionDetection.h:68-69 | two body pairs have the same key exactly when they join the same two identifiers in either order |
| Collision.IndexPairIsOrderIndependent | src/collision/CollisionDetection.h:161-170 | the key of (body1, body2) is the key of (body2, body1) |
| Collision.NoCollisionPairUpdates | src/collision/CollisionDetection.h:161-170 | after add the pair is excluded, after remove it is not; every other key is kept as it was by both |
| Collision.NoCollisionPairUpdatesAreIdempotent | src/collision/CollisionDetection.h:161-170 | adding an excluded pair or removing an absent one leaves the set unchanged; adding twice equals adding once |
| Collision.AddThenRemoveNoCollisionPair | src/collision/CollisionDetection.h:161-170 | add then remove, with the bodies in either order, gives the original set minus the pair's key |
| Collision.NoCollisionPairIsSymmetric | src/collision/CollisionDetection.h:80-81 | body1 is excluded from colliding with body2 exactly when body2 is excluded from colliding with body1 |
| Collision.BroadPhaseAlgorithm.AddObject | src/collision/CollisionDetection.h:150 | the broad phase holds the body with the given box, and nothing else changes |
| Collision.BroadPhaseAlgorithm.RemoveObject | src/collision/CollisionDetection.h:157 | the broad phase no longer holds the body, and nothing else changes |
| Collision.CollisionDetection.constructor | src/collision/CollisionDetection.h:106 | no overlapping pairs, no excluded pairs and an empty broad phase |
| Collision.CollisionDetection.AddBody | src/collision/CollisionDetection.h:147-151 | registers the body with its bounding box in the broad phase; the overlapping pairs and exclusion set are unchanged |
| Collision.CollisionDetection.RemoveBody | src/collision/CollisionDetection.h:154-158 | removes the body from the broad phase; the overlapping pairs and exclusion set are unchanged |
| Collision.WithNoCollisionPair | src/collision/CollisionDetection.h:163 | the exclusion set after `insert` of the pair's key; NoCollisionPairUpdates and NoCollisionPairUpdatesAreIdempotent state its effect |
| Collision.WithoutNoCollisionPair | src/collision/CollisionDetection.h:169 | the exclusion set after `erase` of the pair's key; NoCollisionPairUpdates and AddThenRemoveNoCollisionPair state its effect |
| Collision.CollisionDetection.AddNoCollisionPair | src/collision/CollisionDetection.h:161-164 | the exclusion set becomes WithNoCollisionPair of the old set; Valid is kept |
| Collision.CollisionDetection.RemoveNoCollisionPair | src/collision/CollisionDetection.h:167-170 | the exclusion set becomes WithoutNoCollisionPair of the old set; Valid is kept |
| Collision.CollisionDetection.OverlappingPairsAreUnique | src/collision/CollisionDetection.h:68-69 | two entries of the overlapping-pair table that join the same two bodies, in either order, are the same entry |

## Left out

- `Matrix3x3::getInverse`, the quaternion-vector product and `Quaternion::normalize` are not in the files modelled. They are parameters (`MathKernel`): nothing is assumed of them except where a lemma's `requires` says that `inverse` inverts K.
- Floating-point rounding: `decimal` is `real`, so the identities are exact.
- The constructor of the joint computes the local anchors from the world anchor and the inverse body transforms. The model takes the local anchors as constructor parameters, because the transform inverse is outside the model.
- The solver loop that calls these methods (iteration counts, joint order) is not part of this model. Neither is any claim of convergence across joints.
- Distinct body indices are required only by the lemmas that need them, not by the joint methods. When both bodies share an index, the methods still follow the code's sequential updates, body 1 first.
- `Collision.ComputeBodiesIndexPair`: BroadPhasePair::computeBodiesIndexPair is not part of this model. Its (smaller, larger) ordering is an assumption; every order-independence result rests on it.
- The declaration of the shape-type enumeration lies outside the two files modelled. `CollisionShapeType` carries the library's six tags; only `Sphere` matters to the dispatch.
- Broad-phase internals: `BroadPhaseAlgorithm` is modelled only by the map from registered bodies to their boxes. The spatial structure, the pair computation and the overlap callbacks it fires are not modelled.
- `computeBroadPhase`, `computeNarrowPhase`, `computeCollisionDetection` and the two notify callbacks are declared at src/collision/CollisionDetection.h:92-95,124-130, but their bodies are not part of this model. The same holds for the GJK and sphere-vs-sphere algorithms and for the memory allocator.
- The world pointer, the copy constructor and the assignment operator are not modelled.
- `Collision.CollisionDetection.RemoveBody` only calls the broad phase's `removeObject` (src/collision/CollisionDetection.h:157); it takes nothing out of the exclusion set or the overlapping-pair table itself.
- `Collision.CollisionDetection.AddBody`: in the library the broad phase reports the pairs it starts to track back through `broadPhaseNotifyAddedOverlappingPair` (src/collision/CollisionDetection.h:126-127), which changes the overlapping-pair table. The model omits that callback, so here the table is unchanged by this call and stays empty.
- `Collision.CollisionDetection.RemoveBody`: in the library the broad phase reports the pairs it drops through `broadPhaseNotifyRemovedOverlappingPair` (src/collision/CollisionDetection.h:129-130). The model omits that callback, so here the table is unchanged by this call.
- `Collision.CollisionDetection.OverlappingPairsAreUnique`: it rests on `Valid()`'s clause that each overlapping pair is stored under its own key. That clause is assumed of the omitted callbacks, which are the only code that fills the table.
- `JointDynamics.BiasVector`: the time step is taken as non-zero under the Baumgarte technique. The code divides by it with no guard (src/constraint/BallAndSocketJoint.cpp:101).
- `BallAndSocket.BallAndSocketJoint.InitBeforeSolve`: the same time-step requirement, since it computes the bias this way.
- BETA is the fixed constant 0.2 (src/constraint/BallAndSocketJoint.cpp:33).
- `InitBeforeSolve` reads positions and orientations from the bodies' transforms (src/constraint/BallAndSocketJoint.cpp:57-60). `SolvePositionConstraint` reads them from the step arrays (src/constraint/BallAndSocketJoint.cpp:198-201).
