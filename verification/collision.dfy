/** SteerForCollision: seeks a target object until it touches it, then
    stays put until the target has moved far enough from where the contact
    happened. */
module SteerForCollision {
  import opened Vector3
  import opened Scene

  const DefaultMinMoveDistance: real := 0.5

  datatype Collision = Collision(
    didCollide: bool,
    collisionPosition: Vec3,
    targetObject: Option<ObjectId>,
    reportedArrival: bool,
    considerVelocity: bool,
    considerSubCollider: bool,
    minMoveDistance: real)

  function Default(target: Option<ObjectId>): (c: Collision)
    ensures !c.didCollide && c.considerVelocity && c.considerSubCollider
    ensures c.targetObject == target && c.minMoveDistance == DefaultMinMoveDistance
  {
    Collision(false, Zero, target, false, true, true, DefaultMinMoveDistance)
  }

  /** The `TargetObject` setter: a new target (even the same one) forgets
      any contact and clears the arrival report; the settings stay. */
  function SetTargetObject(c: Collision, value: Option<ObjectId>): (r: Collision)
    ensures r.targetObject == value
    ensures !r.didCollide && r.collisionPosition == Zero && !r.reportedArrival
    ensures r.considerVelocity == c.considerVelocity
    ensures r.considerSubCollider == c.considerSubCollider
    ensures r.minMoveDistance == c.minMoveDistance
  {
    c.(targetObject := value, didCollide := false, collisionPosition := Zero, reportedArrival := false)
  }

  /** The per-frame re-arm: once the target is more than `minMoveDistance`
      away from where contact happened, the behaviour seeks again. */
  function Update(e: Engine, c: Collision, world: World): (r: Collision)
    ensures c.targetObject.Some?
         && Magnitude(e, Sub(world(c.targetObject.value).position, c.collisionPosition)) > c.minMoveDistance
         ==> r == c.(didCollide := false)
    ensures c.targetObject.None?
         || Magnitude(e, Sub(world(c.targetObject.value).position, c.collisionPosition)) <= c.minMoveDistance
         ==> r == c
  {
    if c.targetObject.Some?
       && Magnitude(e, Sub(world(c.targetObject.value).position, c.collisionPosition)) > c.minMoveDistance
    then c.(didCollide := false)
    else c
  }

  /** The steering force: nothing after contact, otherwise the seek vector
      toward the target, honouring `considerVelocity` and never slowing
      for arrival. Seeking without a target dereferences null in the
      source, hence the precondition. */
  function CalculateForce(c: Collision, v: Vehicle, world: World): (force: Vec3)
    requires !c.didCollide ==> c.targetObject.Some?
    ensures c.didCollide ==> force == Zero
    ensures !c.didCollide ==>
      force == v.seek(world(c.targetObject.value).position, c.considerVelocity, false)
  {
    if c.didCollide then Zero
    else v.seek(world(c.targetObject.value).position, c.considerVelocity, false)
  }

  /** Walks the parent chain of the collider, starting at its parent, and
      reports whether the target is met on the way to the root. */
  method ChainContains(h: Hierarchy, collider: ObjectId, target: ObjectId) returns (found: bool)
    requires WellFormed(h)
    ensures found <==> target in Ancestors(h, collider)
  {
    if collider !in h.parent {
      return false;
    }
    var current := h.parent[collider];
    found := false;
    while true
      invariant current in h.depth
      invariant target in Ancestors(h, collider) <==> target in Lineage(h, current)
      decreases h.depth[current]
    {
      if current == target {
        return true;
      }
      if current !in h.parent {
        return false;
      }
      current := h.parent[current];
    }
  }

  /** Contact handling (both on entering and while staying in contact).
      Nothing changes once latched or without a target. A hit on the target
      itself latches; with `considerSubCollider`, so does a hit on any
      object the target is an ancestor of. Latching records where the
      target stands. */
  method HandleCollision(h: Hierarchy, c: Collision, collider: ObjectId, world: World)
    returns (r: Collision)
    requires WellFormed(h)
    ensures c.didCollide || c.targetObject.None? ==> r == c
    ensures !c.didCollide && c.targetObject.Some? ==>
      var hit := collider == c.targetObject.value
              || (c.considerSubCollider && c.targetObject.value in Ancestors(h, collider));
      && (hit ==> r == c.(didCollide := true, collisionPosition := world(c.targetObject.value).position))
      && (!hit ==> r == c)
  {
    if c.didCollide || c.targetObject.None? {
      return c;
    }
    var target := c.targetObject.value;
    var hit := false;
    if collider == target {
      hit := true;
    } else if c.considerSubCollider {
      hit := ChainContains(h, collider, target);
    }
    if hit {
      r := c.(didCollide := true, collisionPosition := world(target).position);
    } else {
      r := c;
    }
  }

  /** A contact is remembered across frames until the target moves: right
      after latching, an update in the same world keeps the latch. */
  lemma LatchHoldsWhileTargetStays(e: Engine, c: Collision, world: World)
    requires Lawful(e)
    requires c.targetObject.Some? && c.minMoveDistance >= 0.0
    ensures var latched := c.(didCollide := true, collisionPosition := world(c.targetObject.value).position);
      Update(e, latched, world) == latched
  {
    DistanceToSelf(e, world(c.targetObject.value).position);
  }

  /** Re-arming is exactly "moved further than the threshold": a latched
      behaviour seeks again after an update iff the target is now more than
      `minMoveDistance` from the recorded contact point. */
  lemma RearmIffMovedAway(e: Engine, c: Collision, world: World)
    requires c.didCollide && c.targetObject.Some?
    ensures !Update(e, c, world).didCollide
        <==> Magnitude(e, Sub(world(c.targetObject.value).position, c.collisionPosition)) > c.minMoveDistance
  {
  }

  /** The contact gate as the force sees it. Once latched at the target's
      position, the behaviour exerts no force; an update that finds the
      target at most `minMoveDistance` from that contact point keeps it
      that way, and one that finds it further away re-arms the behaviour,
      which then seeks the target where it now is. */
  lemma LatchGatesForce(e: Engine, c: Collision, v: Vehicle, contact: World, world: World)
    requires c.targetObject.Some?
    ensures var t := c.targetObject.value;
      var latched := c.(didCollide := true, collisionPosition := contact(t).position);
      var moved := Magnitude(e, Sub(world(t).position, contact(t).position));
      && CalculateForce(latched, v, world) == Zero
      && (moved <= c.minMoveDistance ==> CalculateForce(Update(e, latched, world), v, world) == Zero)
      && (moved > c.minMoveDistance ==>
            CalculateForce(Update(e, latched, world), v, world)
            == v.seek(world(t).position, c.considerVelocity, false))
  {
  }

  /** Assigning a target starts a fresh pursuit of it: whatever contact was
      latched before, the force is the seek toward the new target. */
  lemma NewTargetIsSought(c: Collision, o: ObjectId, v: Vehicle, world: World)
    ensures CalculateForce(SetTargetObject(c, Some(o)), v, world)
         == v.seek(world(o).position, c.considerVelocity, false)
  {
  }
}
