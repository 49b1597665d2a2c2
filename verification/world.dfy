/** The object registry of `game_world`, reduced to what the collision hooks
    use: membership (`o in game_world.all_objects()`) and
    `game_world.remove_object(o)`. The module's own code is not part of this
    model. Removing an object that is no longer in the world is not assumed
    to be harmless: it yields `None`, a failed removal. */
module World {

  import opened Wrappers

  type ObjectId = nat

  type Registry = set<ObjectId>

  /** The collision group under which `game_world` reports a boy touching a
      ball; both participants receive it. */
  const BoyBall: string := "boy:ball"

  /** `game_world.remove_object(o)`: it succeeds exactly when `o` is in the
      world, and then `o` is gone and every other object stays. */
  function Remove(reg: Registry, o: ObjectId): (r: Option<Registry>)
    ensures r.Some? <==> o in reg
    ensures r.Some? ==> o !in r.value && forall p :: p != o ==> (p in r.value <==> p in reg)
  {
    if o in reg then Some(reg - {o}) else None
  }
}
