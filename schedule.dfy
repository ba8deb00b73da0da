/**
 * One frame of the game: the input systems run before the core systems,
 * and the core systems run chained, so a frame is
 * handle_input, then coin_generation, then spawn_unit, then move_units.
 */
module Schedule {
  import opened Inventory
  import opened Core
  import opened Input

  /**
   * One frame of `dt` seconds. Spending happens before the frame's coins
   * are added, and the units requested in this frame are spawned before the
   * move, so they have already walked 10·dt when the frame ends.
   */
  method Frame<U>(world: World, inventory: Inventory, justReleased: set<KeyCode>, playerUnits: seq<U>,
                  cost: U -> u32, accrue: (Stock, real) -> Stock, dt: real, draws: nat -> Draw)
    returns (events: seq<SpawnUnit<U>>)
    requires |playerUnits| <= 4
    modifies world, inventory.coins
    ensures var spent := Spend(old(inventory.coins.Value()), playerUnits, cost, justReleased);
            events == spent.1 && inventory.coins.Value() == accrue(spent.0, CoinsPerSecond * dt)
    ensures world.base == old(world.base)
    ensures world.units == Moved(old(world.units) + Spawned(world.base, |events|, draws), dt)
    ensures |world.units| == |old(world.units)| + |events|
    ensures forall k :: 0 <= k < |events| ==>
              world.units[|old(world.units)| + k] == Advance(SpawnPoint(world.base, draws(k)), dt)
  {
    events := HandleInput(justReleased, inventory, playerUnits, cost);
    CoinGeneration(inventory, dt, accrue);
    world.SpawnUnits(events, draws);
    world.MoveUnits(dt);
  }
}
