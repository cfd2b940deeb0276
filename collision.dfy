/**
 The bookkeeping of the collision-detection orchestrator: the choice of a
 narrow-phase algorithm for a pair of shapes, the set of body pairs that must
 not collide, the table of broad-phase overlapping pairs and the delegation of
 body registration to the broad phase.

 Both the exclusion set and the overlapping-pair table are keyed by the body
 index pair that BroadPhasePair::computeBodiesIndexPair builds. Its code is
 not part of this model; ComputeBodiesIndexPair below ASSUMES that it orders
 the two body identifiers as (smaller, larger), so that the key of a pair of
 bodies does not depend on the order in which they are given.
 */
module Collision {
  import opened Mathematics

  /** The identifier of a collision body (an unsigned integer in the library). */
  type BodyIndex = nat

  /** The key of an (unordered) pair of bodies. */
  type BodyIndexPair = (BodyIndex, BodyIndex)

  /** The type tag of a collision shape. */
  datatype CollisionShapeType = Box | Sphere | Cone | Cylinder | Capsule | ConvexMesh

  /** The two narrow-phase algorithms the orchestrator owns. */
  datatype NarrowPhaseAlgorithm = SphereVsSphereAlgorithm | GjkAlgorithm

  /** The dedicated sphere-vs-sphere test for two spheres, GJK for any other combination. */
  function SelectNarrowPhaseAlgorithm(shapeType1: CollisionShapeType, shapeType2: CollisionShapeType)
    : (algorithm: NarrowPhaseAlgorithm)
    ensures algorithm == SphereVsSphereAlgorithm <==> shapeType1 == Sphere && shapeType2 == Sphere
    ensures algorithm == GjkAlgorithm <==> shapeType1 != Sphere || shapeType2 != Sphere
  {
    if shapeType1 == Sphere && shapeType2 == Sphere then SphereVsSphereAlgorithm else GjkAlgorithm
  }

  /** An axis-aligned bounding box. */
  datatype AABB = AABB(minCoordinates: Vector3, maxCoordinates: Vector3)

  class CollisionBody {
    const id: BodyIndex
    var aabb: AABB

    constructor (id: BodyIndex, aabb: AABB)
      ensures this.id == id && this.aabb == aabb
    {
      this.id := id;
      this.aabb := aabb;
    }
  }

  /** The key of the pair {body1, body2}: the two identifiers, smaller first
      (the assumed behaviour of BroadPhasePair::computeBodiesIndexPair). */
  function ComputeBodiesIndexPair(body1: CollisionBody, body2: CollisionBody): (key: BodyIndexPair)
    ensures key.0 <= key.1
    ensures key == (body1.id, body2.id) || key == (body2.id, body1.id)
  {
    if body1.id < body2.id then (body1.id, body2.id) else (body2.id, body1.id)
  }

  /** Two pairs of bodies have the same key exactly when they join the same
      two identifiers, in either order. */
  lemma IndexPairIdentifiesUnorderedPair(a: CollisionBody, b: CollisionBody,
                                          c: CollisionBody, d: CollisionBody)
    ensures ComputeBodiesIndexPair(a, b) == ComputeBodiesIndexPair(c, d)
            <==> (a.id == c.id && b.id == d.id) || (a.id == d.id && b.id == c.id)
  {
    var k1, k2 := ComputeBodiesIndexPair(a, b), ComputeBodiesIndexPair(c, d);
    if (a.id == c.id && b.id == d.id) || (a.id == d.id && b.id == c.id) {
      assert k1 == k2;
    }
  }

  /** The key does not depend on the order of the two bodies. */
  lemma IndexPairIsOrderIndependent(body1: CollisionBody, body2: CollisionBody)
    ensures ComputeBodiesIndexPair(body1, body2) == ComputeBodiesIndexPair(body2, body1)
  {
    IndexPairIdentifiesUnorderedPair(body1, body2, body2, body1);
  }

  /** A pair of bodies whose bounding boxes overlap in the broad phase. */
  class BroadPhasePair {
    const body1: CollisionBody
    const body2: CollisionBody

    constructor (body1: CollisionBody, body2: CollisionBody)
      ensures this.body1 == body1 && this.body2 == body2
    {
      this.body1 := body1;
      this.body2 := body2;
    }

    function Key(): BodyIndexPair {
      ComputeBodiesIndexPair(body1, body2)
    }
  }

  /** The broad phase, seen only through the bodies it holds and the bounding
      box it was given for each; its spatial structure is not modelled. */
  class BroadPhaseAlgorithm {
    var objects: map<CollisionBody, AABB>

    constructor ()
      ensures objects == map[]
    {
      objects := map[];
    }

    method AddObject(body: CollisionBody, aabb: AABB)
      modifies this
      ensures objects == old(objects)[body := aabb]
    {
      objects := objects[body := aabb];
    }

    method RemoveObject(body: CollisionBody)
      modifies this
      ensures objects == old(objects) - {body}
    {
      objects := objects - {body};
    }
  }

  // ---------------------------------------------------------------------
  // The exclusion set as a value

  /** The exclusion set after addNoCollisionPair(body1, body2). */
  function WithNoCollisionPair(pairs: set<BodyIndexPair>, body1: CollisionBody, body2: CollisionBody)
    : set<BodyIndexPair>
  {
    pairs + {ComputeBodiesIndexPair(body1, body2)}
  }

  /** The exclusion set after removeNoCollisionPair(body1, body2). */
  function WithoutNoCollisionPair(pairs: set<BodyIndexPair>, body1: CollisionBody, body2: CollisionBody)
    : set<BodyIndexPair>
  {
    pairs - {ComputeBodiesIndexPair(body1, body2)}
  }

  /** Whether the exclusion set forbids body1 and body2 to collide. */
  predicate IsNoCollisionPair(pairs: set<BodyIndexPair>, body1: CollisionBody, body2: CollisionBody) {
    ComputeBodiesIndexPair(body1, body2) in pairs
  }

  /** Adding a pair excludes it and adds no other key; removing a pair
      re-admits it and removes no other key. */
  lemma NoCollisionPairUpdates(pairs: set<BodyIndexPair>, body1: CollisionBody,
                               body2: CollisionBody, key: BodyIndexPair)
    ensures IsNoCollisionPair(WithNoCollisionPair(pairs, body1, body2), body1, body2)
    ensures !IsNoCollisionPair(WithoutNoCollisionPair(pairs, body1, body2), body1, body2)
    ensures key != ComputeBodiesIndexPair(body1, body2) ==>
              (key in WithNoCollisionPair(pairs, body1, body2) <==> key in pairs)
              && (key in WithoutNoCollisionPair(pairs, body1, body2) <==> key in pairs)
  {
  }

  /** Adding a pair that is already excluded, or removing one that is not,
      leaves the set as it was. */
  lemma NoCollisionPairUpdatesAreIdempotent(pairs: set<BodyIndexPair>, body1: CollisionBody,
                                            body2: CollisionBody)
    ensures IsNoCollisionPair(pairs, body1, body2) ==> WithNoCollisionPair(pairs, body1, body2) == pairs
    ensures !IsNoCollisionPair(pairs, body1, body2) ==> WithoutNoCollisionPair(pairs, body1, body2) == pairs
    ensures WithNoCollisionPair(WithNoCollisionPair(pairs, body1, body2), body1, body2)
            == WithNoCollisionPair(pairs, body1, body2)
  {
  }

  /** Excluding a pair and then re-admitting it, with the bodies given in
      either order, gives the original set without that pair's key. */
  lemma AddThenRemoveNoCollisionPair(pairs: set<BodyIndexPair>, body1: CollisionBody, body2: CollisionBody)
    ensures WithoutNoCollisionPair(WithNoCollisionPair(pairs, body1, body2), body1, body2)
            == pairs - {ComputeBodiesIndexPair(body1, body2)}
    ensures WithoutNoCollisionPair(WithNoCollisionPair(pairs, body1, body2), body2, body1)
            == pairs - {ComputeBodiesIndexPair(body1, body2)}
  {
    IndexPairIsOrderIndependent(body1, body2);
  }

  /** The exclusion is symmetric: body1 may not collide with body2 exactly
      when body2 may not collide with body1. */
  lemma NoCollisionPairIsSymmetric(pairs: set<BodyIndexPair>, body1: CollisionBody, body2: CollisionBody)
    ensures IsNoCollisionPair(pairs, body1, body2) <==> IsNoCollisionPair(pairs, body2, body1)
  {
    IndexPairIsOrderIndependent(body1, body2);
  }

  // ---------------------------------------------------------------------
  // The orchestrator

  class CollisionDetection {
    /** The broad-phase overlapping pairs, by key. */
    var overlappingPairs: map<BodyIndexPair, BroadPhasePair>
    const broadPhaseAlgorithm: BroadPhaseAlgorithm
    /** The keys of the pairs of bodies that cannot collide with each other. */
    var noCollisionPairs: set<BodyIndexPair>

    /** Every overlapping pair is stored under its own key, and every
        excluded key is in canonical order. */
    ghost predicate Valid()
      reads this
    {
      && (forall key :: key in overlappingPairs ==> overlappingPairs[key].Key() == key)
      && (forall key :: key in noCollisionPairs ==> key.0 <= key.1)
    }

    constructor ()
      ensures Valid()
      ensures overlappingPairs == map[] && noCollisionPairs == {}
      ensures fresh(broadPhaseAlgorithm) && broadPhaseAlgorithm.objects == map[]
    {
      overlappingPairs := map[];
      broadPhaseAlgorithm := new BroadPhaseAlgorithm();
      noCollisionPairs := {};
    }

    /** Registers the body, with its current bounding box, in the broad
        phase; nothing of the orchestrator's own state changes. */
    method AddBody(body: CollisionBody)
      modifies broadPhaseAlgorithm
      ensures broadPhaseAlgorithm.objects == old(broadPhaseAlgorithm.objects)[body := body.aabb]
      ensures unchanged(this)
    {
      broadPhaseAlgorithm.AddObject(body, body.aabb);
    }

    /** Removes the body from the broad phase; nothing of the orchestrator's
        own state changes. */
    method RemoveBody(body: CollisionBody)
      modifies broadPhaseAlgorithm
      ensures broadPhaseAlgorithm.objects == old(broadPhaseAlgorithm.objects) - {body}
      ensures unchanged(this)
    {
      broadPhaseAlgorithm.RemoveObject(body);
    }

    method AddNoCollisionPair(body1: CollisionBody, body2: CollisionBody)
      requires Valid()
      modifies this`noCollisionPairs
      ensures Valid()
      ensures noCollisionPairs == WithNoCollisionPair(old(noCollisionPairs), body1, body2)
    {
      noCollisionPairs := noCollisionPairs + {ComputeBodiesIndexPair(body1, body2)};
    }

    method RemoveNoCollisionPair(body1: CollisionBody, body2: CollisionBody)
      requires Valid()
      modifies this`noCollisionPairs
      ensures Valid()
      ensures noCollisionPairs == WithoutNoCollisionPair(old(noCollisionPairs), body1, body2)
    {
      noCollisionPairs := noCollisionPairs - {ComputeBodiesIndexPair(body1, body2)};
    }

    /** The table holds at most one overlapping pair per pair of bodies: two
        entries that join the same two bodies, in either order, are one entry. */
    lemma OverlappingPairsAreUnique(key1: BodyIndexPair, key2: BodyIndexPair)
      requires Valid() && key1 in overlappingPairs && key2 in overlappingPairs
      requires var (p1, p2) := (overlappingPairs[key1], overlappingPairs[key2]);
               (p1.body1.id == p2.body1.id && p1.body2.id == p2.body2.id)
               || (p1.body1.id == p2.body2.id && p1.body2.id == p2.body1.id)
      ensures key1 == key2
    {
      var (p1, p2) := (overlappingPairs[key1], overlappingPairs[key2]);
      IndexPairIdentifiesUnorderedPair(p1.body1, p1.body2, p2.body1, p2.body2);
    }
  }
}
