/** What the behaviours read from the scene: object references, poses, the
    transform hierarchy, and the vehicle they steer. */
module Scene {
  import opened Vector3

  datatype Option<T> = None | Some(value: T)

  /** A reference to a Transform / GameObject. Two references are the same
      object exactly when their ids are equal. */
  type ObjectId = nat

  /** A transform's pose at the moment it is read. */
  datatype Pose = Pose(position: Vec3, rotation: Quat, forward: Vec3)

  /** The pose every object has at the moment an operation runs. */
  type World = ObjectId -> Pose

  /** The transform hierarchy: `parent` maps a child to its parent (roots
      have no entry); `depth` is a rank that drops strictly from child to
      parent, which is what makes every walk toward the root finite. */
  datatype Hierarchy = Hierarchy(parent: map<ObjectId, ObjectId>, depth: map<ObjectId, nat>)

  ghost predicate WellFormed(h: Hierarchy) {
    forall o :: o in h.parent ==>
      o in h.depth && h.parent[o] in h.depth && h.depth[h.parent[o]] < h.depth[o]
  }

  /** `o` followed by its parent, grandparent, ... up to the root. */
  function Lineage(h: Hierarchy, o: ObjectId): (r: seq<ObjectId>)
    requires WellFormed(h)
    requires o in h.parent ==> o in h.depth
    decreases if o in h.depth then h.depth[o] else 0
    ensures |r| >= 1 && r[0] == o
  {
    if o in h.parent then [o] + Lineage(h, h.parent[o]) else [o]
  }

  /** The proper ancestors of `o`: the objects its parent walk visits. */
  function Ancestors(h: Hierarchy, o: ObjectId): seq<ObjectId>
    requires WellFormed(h)
  {
    if o in h.parent then Lineage(h, h.parent[o]) else []
  }

  /** The vehicle a behaviour steers, as that behaviour sees it. The seek
      vector and the future-position predictor live outside this model and
      are taken as given functions:
      - seek(target, considerVelocity, considerArrivalRadius);
      - seekDefault(target, considerVelocity): the two-argument overload,
        which applies the vehicle's own default for the arrival flag. */
  datatype Vehicle = Vehicle(
    position: Vec3,
    velocity: Vec3,
    speed: real,
    forward: Vec3,
    normalizedVelocity: Vec3,
    maxForce: real,
    arrivalRadius: real,
    seek: (Vec3, bool, bool) -> Vec3,
    seekDefault: (Vec3, bool) -> Vec3,
    predictFuturePosition: real -> Vec3)
}
