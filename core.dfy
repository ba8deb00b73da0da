/**
 * The core game play systems: placing the player's base, accruing coins,
 * spawning the player's units next to the base and walking them along the
 * lane. Positions are triples of `real` (the source's `f32` vectors); the
 * random numbers of each spawn are passed in as a stream of draws.
 */
module Core {
  import opened Inventory

  datatype Vec3 = Vec3(x: real, y: real, z: real) {
    function Add(v: Vec3): Vec3 { Vec3(x + v.x, y + v.y, z + v.z) }
    function Scale(k: real): Vec3 { Vec3(k * x, k * y, k * z) }
  }

  /** The two random numbers drawn for one spawned unit, in the order they are drawn. */
  datatype Draw = Draw(first: real, second: real)

  /** The request to spawn a unit of the given type. */
  datatype SpawnUnit<U> = SpawnUnit(isFoe: bool, unitType: U)

  /** Where `setup` puts the player's base. */
  const BaseStart: Vec3 := Vec3(-400.0, 0.0, -10.0)

  /** The velocity at which every player unit walks. */
  const UnitVelocity: Vec3 := Vec3(10.0, 0.0, 0.0)

  /** The coins offered to the inventory per second. */
  const CoinsPerSecond: real := 10.0

  predicate InUnitInterval(r: real) { 0.0 <= r < 1.0 }

  /** The position of a unit spawned at `base` with the draws `d`: at the
      base's x, with z raised by 100 plus up to 10 (so it is drawn over the
      base) and y raised by up to 2. */
  function SpawnPoint(base: Vec3, d: Draw): (p: Vec3)
    ensures p.x == base.x
    ensures p.y - base.y == 2.0 * d.second
    ensures p.z - base.z - 100.0 == 10.0 * d.first
    ensures InUnitInterval(d.first) ==> base.z + 100.0 <= p.z < base.z + 110.0
    ensures InUnitInterval(d.second) ==> base.y <= p.y < base.y + 2.0
  {
    var z := base.z + (100.0 + d.first * 10.0);
    var y := base.y + d.second * 2.0;
    Vec3(base.x, y, z)
  }

  /** The positions of the `n` units spawned at `base`, the k-th with draws `draws(k)`. */
  function Spawned(base: Vec3, n: nat, draws: nat -> Draw): (ps: seq<Vec3>)
    ensures |ps| == n
    ensures forall k :: 0 <= k < n ==> ps[k] == SpawnPoint(base, draws(k))
  {
    seq(n, k requires 0 <= k < n => SpawnPoint(base, draws(k)))
  }

  /** One unit's move over `dt` seconds. */
  function Advance(p: Vec3, dt: real): Vec3
  {
    p.Add(UnitVelocity.Scale(dt))
  }

  /** All units' moves over `dt` seconds: each walks 10·dt along x and
      stays where it was along y and z. */
  function Moved(units: seq<Vec3>, dt: real): (r: seq<Vec3>)
    ensures |r| == |units|
    ensures forall k :: 0 <= k < |units| ==>
              r[k].x == units[k].x + 10.0 * dt && r[k].y == units[k].y && r[k].z == units[k].z
  {
    seq(|units|, k requires 0 <= k < |units| => Advance(units[k], dt))
  }

  /** Moving for `dt1` and then for `dt2` is moving for `dt1 + dt2`. */
  lemma MovesAdd(units: seq<Vec3>, dt1: real, dt2: real)
    ensures Moved(Moved(units, dt1), dt2) == Moved(units, dt1 + dt2)
  {
  }

  /** Moving commutes with adding units: units appended later are moved by
      the same rule as those already there. */
  lemma MovedAppend(units: seq<Vec3>, more: seq<Vec3>, dt: real)
    ensures Moved(units + more, dt) == Moved(units, dt) + Moved(more, dt)
  {
  }

  /**
   * The player's side of the world: the one player base and the player's
   * units, in the order they were spawned.
   */
  class World {
    var base: Vec3
    var units: seq<Vec3>

    /** `setup`: one player base at (-400, 0, -10) and no units. */
    constructor Setup()
      ensures base == BaseStart && units == []
    {
      base := BaseStart;
      units := [];
    }

    /** `spawn_unit`: one new unit per request, at the base, shifted by the
        request's draws; the base does not change. */
    method SpawnUnits<U>(events: seq<SpawnUnit<U>>, draws: nat -> Draw)
      modifies this`units
      ensures base == old(base)
      ensures units == old(units) + Spawned(base, |events|, draws)
    {
      var i := 0;
      while i < |events|
        invariant 0 <= i <= |events|
        invariant units == old(units) + Spawned(base, i, draws)
      {
        var transform := SpawnPoint(base, draws(i));
        units := units + [transform];
        i := i + 1;
      }
    }

    /** `move_units`: every player unit walks 10·dt along x; the base stays. */
    method MoveUnits(dt: real)
      modifies this`units
      ensures base == old(base)
      ensures units == Moved(old(units), dt)
    {
      var i := 0;
      while i < |units|
        invariant 0 <= i <= |units| == |old(units)|
        invariant forall k :: 0 <= k < i ==> units[k] == Advance(old(units)[k], dt)
        invariant forall k :: i <= k < |units| ==> units[k] == old(units)[k]
      {
        units := units[i := Advance(units[i], dt)];
        i := i + 1;
      }
    }
  }

  /** `coin_generation`: 10·dt coins are offered to the player's counter.
      How the counter absorbs them is the rule `accrue`. */
  method CoinGeneration(inventory: Inventory, dt: real, accrue: (Stock, real) -> Stock)
    modifies inventory.coins
    ensures inventory.coins.Value() == accrue(old(inventory.coins.Value()), CoinsPerSecond * dt)
  {
    var s := accrue(inventory.coins.Value(), CoinsPerSecond * dt);
    inventory.coins.count, inventory.coins.capacity := s.count, s.capacity;
  }
}
