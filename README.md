# Invasion by Nightfall: a Dafny model of the game core

This project models the core of a small lane battler written in Rust on the
Bevy engine. It covers four parts:

- **The coin counter** (`Item`, `Inventory`). A capped counter that can be
  filled up to its capacity, handing back what does not fit. It can also be
  spent from only when it holds enough.
- **Health** (`Health`, `UnitStats`). A unit starts at full health, takes
  hits that lower it, and is dead at zero or below.
- **The core systems**. `setup` places the player's base. `coin_generation`
  offers coins. `spawn_unit` creates one unit per spawn request, near the
  base with a random offset. `move_units` walks every player unit along the
  lane.
- **The input gate** (`handle_input`, `InputData::from_slot`). Each of the
  player's unit slots has a key. When that key has just been released and
  the unit's cost can be paid, a spawn request is sent.

The pieces the source changes in place are classes: `Item`, `Health` and
`World` (the player's base and units). Their methods say what the new state
is in terms of value-level functions: `Stock`, `HealthValue`, `Moved`,
`Spawned`, `Spend`. The lemmas about those functions carry the properties:
conservation, bounds, the round trip, death, order and cost accounting.

Modelling choices:

- The source's `f32` values are `real`. Rounding is not modelled.
- Rust's `as u32` cast on a float is modelled exactly by `FloorU32`. It
  clamps at zero, rounds down and saturates at `u32::MAX`.
- The random numbers drawn for each spawned unit are a parameter
  `draws: nat -> Draw`. The k-th request of a frame uses `draws(k)`, first
  for z and then for y.
- Unit types are opaque. `handle_input` takes the player's unit list and a
  cost function as parameters, because `UnitType` is not part of this
  model.
- The keyboard state is the set of keys just released in this frame.
- `Schedule.Frame` runs the systems in their fixed order: `handle_input`
  (its system set is ordered before the core set), then `coin_generation`,
  `spawn_unit` and `move_units` (chained). Units spawned in a frame are
  already in the world when `move_units` runs. This is what Bevy's automatic
  sync point between chained systems does with deferred spawns.
- The files mix two revisions of the game. `src/core/mod.rs` declares
  `SpawnUnit` without fields, but `src/input.rs` sends
  `SpawnUnit { is_foe, unit_type }`. The model uses the fields, and
  `spawn_unit` ignores them, as the shown code does.
- `spawn_unit` (src/core/mod.rs:69-86) never reads a request's fields, so
  every spawned unit is a player unit whatever `is_foe` says. The spawn
  offset is along z (100 + 10·r1) and y (2·r2), and units walk along x.
  Spending is done by the input gate, not by `spawn_unit`.

## Model

| member | source | states |
|---|---|---|
| `Inventory.FloorU32` | src/core/inventory.rs:32-38 | Below 1 (negatives included) the result is 0. In range it is the floor. From `u32::MAX` on it saturates. |
| `Inventory.Stock.AddUntilFull` | src/core/inventory.rs:40-51 | The new count is min(count + amount, capacity). The overflow is max(0, count + amount − capacity). The capacity does not change. |
| `Inventory.Stock.TryRemove` | src/core/inventory.rs:53-63 | Succeeds iff count ≥ amount. On success the count drops by exactly the amount. On failure nothing changes. The capacity never changes. |
| `Inventory.AddUntilFullConserves` | src/core/inventory.rs:41-51 | New count plus returned overflow equals old count plus amount. |
| `Inventory.AddUntilFullKeepsValid` | src/core/inventory.rs:41-51 | From 0 ≤ count ≤ capacity with a non-negative amount: the count stays within bounds and does not decrease, and the overflow is ≥ 0. |
| `Inventory.TryRemoveKeepsValid` | src/core/inventory.rs:56-63 | A removal keeps 0 ≤ count ≤ capacity, so the count never becomes negative. |
| `Inventory.TryRemoveUndoesAdd` | src/core/inventory.rs:41-63 | Removing an amount just added without overflow succeeds and restores the old counter. |
| `Inventory.AddUntilFullNotReachingCapacity` | src/core/inventory.rs:76-84 | (2 of 10) + 5 gives count() 7 and overflow 0 as u32. |
| `Inventory.AddUntilFullReachingCapacity` | src/core/inventory.rs:86-94 | (5 of 10) + 10 gives count() 10 and overflow 5 as u32. |
| `Inventory.TryRemoveSuccessful` | src/core/inventory.rs:96-104 | (8 of 10) remove 5 succeeds and leaves count() 3. |
| `Inventory.TryRemoveFailure` | src/core/inventory.rs:106-114 | (3 of 10) remove 5 fails and leaves count() 3. |
| `Inventory.Item.Empty` | src/core/inventory.rs:17-22 | A new counter holds 0 with the given capacity, and is valid. |
| `Inventory.Item.New` | src/core/inventory.rs:24-30 | A new counter holds the given count and capacity. It is valid iff count ≤ capacity. |
| `Inventory.Item.Count` | src/core/inventory.rs:32-34 | `count()` is `FloorU32` of the stored count, so 0 when the stored count is ≤ 0. |
| `Inventory.Item.Capacity` | src/core/inventory.rs:36-38 | `capacity()` is `FloorU32` of the stored capacity, so 0 when that is ≤ 0. |
| `Inventory.Item.AddUntilFull` | src/core/inventory.rs:40-51 | Sets the counter and returns the overflow as `Stock.AddUntilFull` gives them. Validity is kept for a non-negative amount. |
| `Inventory.Item.TryRemove` | src/core/inventory.rs:53-63 | Sets the counter and returns success as `Stock.TryRemove` gives them. Validity is kept. |
| `Inventory.Inventory.constructor` | src/core/inventory.rs:5-8 | The inventory holds the given coin counter. |
| `Stats.Full` | src/core/stats.rs:20-22 | `from_max(m)` has current = max = m. It is dead iff m ≤ 0. |
| `Stats.HealthValue.Damaged` | src/core/stats.rs:28-30 | A hit lowers current by exactly the damage and keeps max. A non-negative hit never raises current. |
| `Stats.DamageAdds` | src/core/stats.rs:28-30 | A hit of d1 then a hit of d2 equals one hit of d1 + d2. |
| `Stats.HitsAreTotal` | src/core/stats.rs:28-30 | Any sequence of hits equals one hit of their sum. |
| `Stats.TotalNonNegative` | src/core/stats.rs:28-30 | Non-negative hits add up to a non-negative total. |
| `Stats.NeverAboveMax` | src/core/stats.rs:20-30 | From full health, non-negative hits keep current ≤ max, and max never changes. |
| `Stats.StaysDead` | src/core/stats.rs:24-30 | A dead unit that takes more non-negative hits stays dead. |
| `Stats.DeadAtExactlyZero` | src/core/stats.rs:24-30 | Max 5 hit by 2 is alive. Hit by 2 then 3 it is at exactly 0 and dead. |
| `Stats.Health.FromMax` | src/core/stats.rs:20-22 | The new health is `Full(max)`. |
| `Stats.Health.IsDead` | src/core/stats.rs:24-26 | Dead iff current ≤ 0. |
| `Stats.Health.ApplyDamage` | src/core/stats.rs:28-30 | The new health is the old one after the hit: current lowered by exactly the damage, max unchanged. |
| `Core.SpawnPoint` | src/core/mod.rs:72-74 | A spawned unit has the base's x. Its y is base.y + 2·r2 and its z is base.z + 100 + 10·r1. With draws in [0, 1), its z is 100 to 110 more than the base's z, so it is drawn over the base, and its y is 0 to 2 more than the base's y. |
| `Core.Spawned` | src/core/mod.rs:69-75 | n requests give exactly n positions, the k-th spawned with the k-th draws. |
| `Core.Moved` | src/core/mod.rs:89-92 | Every unit's x grows by exactly 10·dt, its y and z stay, and no unit is added or lost. |
| `Core.MovesAdd` | src/core/mod.rs:89-92 | Moving for dt1 and then dt2 equals moving for dt1 + dt2. |
| `Core.MovedAppend` | src/core/mod.rs:89-92 | Moving commutes with appending units: each unit moves the same whatever units come before it. |
| `Core.World.Setup` | src/core/mod.rs:44-57 | Exactly one player base, at (-400, 0, -10), and no units. |
| `Core.World.SpawnUnits` | src/core/mod.rs:63-87 | Appends one unit per request, at `Spawned` positions, after the existing units. The base does not change. |
| `Core.World.MoveUnits` | src/core/mod.rs:89-92 | The units become `Moved(old units, dt)` and the base does not move. |
| `Core.CoinGeneration` | src/core/mod.rs:59-61 | The counter becomes the accrual rule applied to the old counter and 10·dt. |
| `Input.FromSlot` | src/input.rs:29-49 | A slot has input data iff its index is below 4. The glyph is the one-letter string of the slot's key. |
| `Input.SlotKeys` | src/input.rs:29-47 | Slots 0 to 3 have keys Q, W, E and R, and no two slots share a key. |
| `Input.Step` | src/input.rs:61-68 | One slot gives a request iff its key was just released and the coins cover the cost. The request is `is_foe = false` with the slot's unit, and the coins drop by exactly the cost. Otherwise the coins are untouched. |
| `Input.Spend` | src/input.rs:55-70 | Over all slots: the capacity stays, there are at most as many requests as slots, and every request is `is_foe = false` with a unit from the player's list. |
| `Input.SpendPaysForEvents` | src/input.rs:60-68 | Coins left plus the total cost of the requests sent equals the coins before. |
| `Input.SpendNeverNegative` | src/input.rs:60-68 | A non-negative coin count stays non-negative. |
| `Input.SpendKeepsValid` | src/input.rs:60-68 | A valid counter stays valid and never grows. |
| `Input.OnlyReleasedSpawn` | src/input.rs:60-68 | Every request sent is the request of a slot whose key was just released, and there are never more requests than released slots. |
| `Input.NothingReleased` | src/input.rs:63 | With no slot's key released, no coins are spent and no request is sent. |
| `Input.AffordableAllSpawn` | src/input.rs:60-68 | When the coins cover every released slot, every released slot gets its request in slot order. The coins drop by exactly their total cost. |
| `Input.EarlierSlotFirst` | src/input.rs:60-68 | With 7 coins and two released slots costing 5, only the first slot's unit is requested and 2 coins remain. |
| `Input.HandleInput` | src/input.rs:55-70 | The counter and the requests sent are what `Spend` gives. There must be at most 4 slots. |
| `Schedule.Frame` | src/core/mod.rs:14-25 | Input (its system set is ordered before the core set at src/input.rs:12-19), then coins, then spawn, then move. Spending sees the coins from before the frame's accrual. The requests spawned this frame have walked 10·dt by the end of it. The base never changes. |

## Left out

- `f32` arithmetic: values are `real`. Rounding, NaN, and the inexact
  `capacity as f32` for large capacities are not modelled.
- `Display` for `Item` and `Health`: text formatting only.
- `Core.CoinGeneration`: the shown `Item` defines no `+=`, so the rule that
  combines the offered coins with the counter is a parameter. Only the
  amount offered, 10·dt per frame, is modelled.
- The initial coin counter created by `init_resource::<Inventory>()` in
  `setup`: its default is not in the shown code. `Inventory` is built from a
  given counter instead.
- `bevy_turborand`: the random numbers are parameters. The range [0, 1) of
  `f32()` is only a hypothesis in `Core.SpawnPoint`'s bounds. The
  `RngComponent` stored on each entity is not modelled.
- Bevy scheduling: system sets, `run_if(in_state(GameState::InGame))` on
  the input systems, event buffering across frames, and `Commands`
  deferral. The model reads all of a frame's requests in the same frame,
  and applies spawns before the move.
- `VisibilityBundle` and everything drawn on screen.
- `Stats.Health.ApplyDamage`: `Health` is `Copy` in the source. Here it is a
  class, so copies of a `Health` share one object. No modelled operation
  copies one.
- `Stats.UnitStats`: a plain record with no operations, as in the source.
  It holds a reference to a `Health` object, so a copy of a `UnitStats`
  shares its health, where Rust's `#[derive(Clone)]` copies it. No modelled
  operation copies one.
- `Input.HandleInput`: slots past the fourth have no key, and the source's
  `.unwrap()` panics on such a slot only after slots 0 to 3 have already
  spent coins and sent their requests. The model requires at most four
  slots, so it does not describe that partial work before the panic.
- `UnitType::player_units` and `UnitType::cost`: not part of this model.
  They are parameters of `Input.HandleInput`.
- Targeting, the attack cycle, damage resolution, removal of dead units
  and win detection: none of them is in the shown code.
- `src/core.rs`: an older copy of `src/core/mod.rs` with the same spawn
  and move code. It is not part of this model.
