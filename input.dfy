/**
 * Turning the player's key presses into spawn requests. Each of the
 * player's unit slots has a key; when that key has just been released and
 * the unit's cost can be taken from the player's coins, a spawn request for
 * that unit is sent. Unit types are opaque: any type `U` together with a
 * cost function.
 */
module Input {
  import opened Inventory
  import opened Core

  datatype Option<T> = None | Some(value: T)

  /** The keys that select a unit slot. */
  datatype KeyCode = KeyQ | KeyW | KeyE | KeyR {
    function Letter(): char
    {
      match this
      case KeyQ => 'Q'
      case KeyW => 'W'
      case KeyE => 'E'
      case KeyR => 'R'
    }
  }

  /** A slot's key and the text shown for it. */
  datatype InputData = InputData(key: KeyCode, glyph: string)

  /** `from_slot`: the first four slots have the keys Q, W, E, R; no other slot has a key. */
  function FromSlot(index: nat): (r: Option<InputData>)
    ensures r.Some? <==> index < 4
    ensures r.Some? ==> r.value.glyph == [r.value.key.Letter()]
  {
    match index
    case 0 => Some(InputData(KeyQ, "Q"))
    case 1 => Some(InputData(KeyW, "W"))
    case 2 => Some(InputData(KeyE, "E"))
    case 3 => Some(InputData(KeyR, "R"))
    case _ => None
  }

  /** The key of a slot that has one. */
  function SlotKey(index: nat): KeyCode
    requires index < 4
  {
    FromSlot(index).value.key
  }

  /** The table itself: slots 0 to 3 are Q, W, E, R, so no two slots share a key. */
  lemma SlotKeys()
    ensures SlotKey(0) == KeyQ && SlotKey(1) == KeyW && SlotKey(2) == KeyE && SlotKey(3) == KeyR
    ensures forall i, j :: 0 <= i < 4 && 0 <= j < 4 && SlotKey(i) == SlotKey(j) ==> i == j
  {
  }

  /** One slot of `handle_input`: when its key was just released, try to pay
      for its unit and, only if that worked, request the unit. */
  function Step<U>(coins: Stock, index: nat, unitType: U, cost: U -> u32, justReleased: set<KeyCode>)
    : (r: (Stock, seq<SpawnUnit<U>>))
    requires index < 4
    ensures |r.1| <= 1
    ensures |r.1| == 1 <==> SlotKey(index) in justReleased && cost(unitType) as real <= coins.count
    ensures r.1 != [] ==> r.1[0] == SpawnUnit(false, unitType) && r.0.count + cost(unitType) as real == coins.count
    ensures r.1 == [] ==> r.0 == coins
    ensures r.0.capacity == coins.capacity
  {
    if SlotKey(index) in justReleased then
      var paid := coins.TryRemove(cost(unitType));
      if paid.1 then (paid.0, [SpawnUnit(false, unitType)]) else (paid.0, [])
    else (coins, [])
  }

  /** `handle_input` over the slots `playerUnits`, in order: the coins left
      and the requests sent. */
  function Spend<U>(coins: Stock, playerUnits: seq<U>, cost: U -> u32, justReleased: set<KeyCode>)
    : (r: (Stock, seq<SpawnUnit<U>>))
    requires |playerUnits| <= 4
    ensures r.0.capacity == coins.capacity
    ensures |r.1| <= |playerUnits|
    ensures forall e :: e in r.1 ==> !e.isFoe && e.unitType in playerUnits
    decreases |playerUnits|
  {
    if playerUnits == [] then (coins, [])
    else
      var n := |playerUnits| - 1;
      var before := Spend(coins, playerUnits[..n], cost, justReleased);
      var after := Step(before.0, n, playerUnits[n], cost, justReleased);
      (after.0, before.1 + after.1)
  }

  /** The total cost of the units requested by `events`. */
  function Cost<U>(events: seq<SpawnUnit<U>>, cost: U -> u32): real
  {
    if events == [] then 0.0 else Cost(events[..|events| - 1], cost) + cost(events[|events| - 1].unitType) as real
  }

  /** The requests for every slot among `playerUnits` whose key was just released. */
  function Released<U>(playerUnits: seq<U>, justReleased: set<KeyCode>): seq<SpawnUnit<U>>
    requires |playerUnits| <= 4
  {
    if playerUnits == [] then []
    else
      var n := |playerUnits| - 1;
      Released(playerUnits[..n], justReleased) +
      (if SlotKey(n) in justReleased then [SpawnUnit(false, playerUnits[n])] else [])
  }

  lemma CostAppend<U>(events: seq<SpawnUnit<U>>, more: seq<SpawnUnit<U>>, cost: U -> u32)
    requires |more| <= 1
    ensures Cost(events + more, cost) == Cost(events, cost) + Cost(more, cost)
  {
    if more != [] {
      var x := more[0];
      assert more == [x];
      assert (events + [x])[..|events|] == events;
      assert [x][..0] == [];
      assert Cost(events + [x], cost) == Cost(events, cost) + cost(x.unitType) as real;
      assert Cost([x], cost) == cost(x.unitType) as real;
    } else {
      assert events + more == events;
    }
  }

  lemma {:induction false} CostNonNegative<U>(events: seq<SpawnUnit<U>>, cost: U -> u32)
    ensures Cost(events, cost) >= 0.0
  {
    if events != [] {
      CostNonNegative(events[..|events| - 1], cost);
    }
  }

  /** Coins are conserved: what is left plus the cost of the units
      requested is what there was. */
  lemma {:induction false} SpendPaysForEvents<U>(coins: Stock, playerUnits: seq<U>, cost: U -> u32, justReleased: set<KeyCode>)
    requires |playerUnits| <= 4
    ensures var r := Spend(coins, playerUnits, cost, justReleased);
            r.0.count + Cost(r.1, cost) == coins.count
    decreases |playerUnits|
  {
    if playerUnits != [] {
      var n := |playerUnits| - 1;
      var before := Spend(coins, playerUnits[..n], cost, justReleased);
      var after := Step(before.0, n, playerUnits[n], cost, justReleased);
      SpendPaysForEvents(coins, playerUnits[..n], cost, justReleased);
      CostAppend(before.1, after.1, cost);
      if after.1 != [] {
        assert after.1 == [SpawnUnit(false, playerUnits[n])];
      }
    }
  }

  /** Spending never makes a non-negative coin count negative. */
  lemma SpendKeepsValid<U>(coins: Stock, playerUnits: seq<U>, cost: U -> u32, justReleased: set<KeyCode>)
    requires |playerUnits| <= 4 && coins.Valid()
    ensures Spend(coins, playerUnits, cost, justReleased).0.Valid()
    ensures Spend(coins, playerUnits, cost, justReleased).0.count <= coins.count
  {
  }

  lemma {:induction false} SpendNeverNegative<U>(coins: Stock, playerUnits: seq<U>, cost: U -> u32, justReleased: set<KeyCode>)
    requires |playerUnits| <= 4 && coins.count >= 0.0
    ensures Spend(coins, playerUnits, cost, justReleased).0.count >= 0.0
    decreases |playerUnits|
  {
    if playerUnits != [] {
      SpendNeverNegative(coins, playerUnits[..|playerUnits| - 1], cost, justReleased);
    }
  }

  /** No request is sent for a slot whose key was not just released, and
      there are never more requests than released slots. */
  lemma {:induction false} OnlyReleasedSpawn<U>(coins: Stock, playerUnits: seq<U>, cost: U -> u32, justReleased: set<KeyCode>)
    requires |playerUnits| <= 4
    ensures var r := Spend(coins, playerUnits, cost, justReleased);
            |r.1| <= |Released(playerUnits, justReleased)| &&
            forall e :: e in r.1 ==> e in Released(playerUnits, justReleased)
    decreases |playerUnits|
  {
    if playerUnits != [] {
      OnlyReleasedSpawn(coins, playerUnits[..|playerUnits| - 1], cost, justReleased);
    }
  }

  /** Slots whose key was not released leave the coins alone: with no key
      released nothing is spent and nothing is requested. */
  lemma {:induction false} NothingReleased<U>(coins: Stock, playerUnits: seq<U>, cost: U -> u32, justReleased: set<KeyCode>)
    requires |playerUnits| <= 4
    requires forall i :: 0 <= i < |playerUnits| ==> SlotKey(i) !in justReleased
    ensures Spend(coins, playerUnits, cost, justReleased) == (coins, [])
    decreases |playerUnits|
  {
    if playerUnits != [] {
      NothingReleased(coins, playerUnits[..|playerUnits| - 1], cost, justReleased);
    }
  }

  lemma {:induction false} ReleasedPrefixCost<U>(playerUnits: seq<U>, n: nat, cost: U -> u32, justReleased: set<KeyCode>)
    requires n <= |playerUnits| <= 4
    ensures Cost(Released(playerUnits[..n], justReleased), cost) <= Cost(Released(playerUnits, justReleased), cost)
    decreases |playerUnits|
  {
    if n < |playerUnits| {
      var m := |playerUnits| - 1;
      var last := if SlotKey(m) in justReleased then [SpawnUnit(false, playerUnits[m])] else [];
      assert playerUnits[..m][..n] == playerUnits[..n];
      ReleasedPrefixCost(playerUnits[..m], n, cost, justReleased);
      CostAppend(Released(playerUnits[..m], justReleased), last, cost);
      CostNonNegative(last, cost);
    } else {
      assert playerUnits[..n] == playerUnits;
    }
  }

  /** When the coins cover every released slot, every released slot gets its
      unit, in slot order, and the coins drop by exactly their total cost. */
  lemma {:induction false} AffordableAllSpawn<U>(coins: Stock, playerUnits: seq<U>, cost: U -> u32, justReleased: set<KeyCode>)
    requires |playerUnits| <= 4
    requires Cost(Released(playerUnits, justReleased), cost) <= coins.count
    ensures var r := Spend(coins, playerUnits, cost, justReleased);
            r.1 == Released(playerUnits, justReleased) &&
            r.0.count == coins.count - Cost(Released(playerUnits, justReleased), cost)
    decreases |playerUnits|
  {
    if playerUnits != [] {
      var n := |playerUnits| - 1;
      ReleasedPrefixCost(playerUnits, n, cost, justReleased);
      AffordableAllSpawn(coins, playerUnits[..n], cost, justReleased);
      var last := if SlotKey(n) in justReleased then [SpawnUnit(false, playerUnits[n])] else [];
      CostAppend(Released(playerUnits[..n], justReleased), last, cost);
    }
  }

  /** An earlier slot's purchase can leave a later released slot unaffordable:
      with 7 coins and two released slots costing 5 each, only the first
      unit is requested and 2 coins remain. */
  lemma EarlierSlotFirst<U>(a: U, b: U, cost: U -> u32)
    requires cost(a) == 5 && cost(b) == 5
    ensures Spend(Stock(7.0, 10.0), [a, b], cost, {KeyQ, KeyW}) == (Stock(2.0, 10.0), [SpawnUnit(false, a)])
  {
    var none := Spend(Stock(7.0, 10.0), [], cost, {KeyQ, KeyW});
    var first := Step(none.0, 0, a, cost, {KeyQ, KeyW});
    assert [a, b][..1] == [a] && [a][..0] == [];
    assert SlotKey(0) == KeyQ && SlotKey(1) == KeyW;
    assert first == (Stock(2.0, 10.0), [SpawnUnit(false, a)]);
    var one := Spend(Stock(7.0, 10.0), [a], cost, {KeyQ, KeyW});
    assert one == (first.0, none.1 + first.1);
    assert Step(one.0, 1, [a, b][1], cost, {KeyQ, KeyW}) == (first.0, []);
    assert none.1 + first.1 == first.1 && one.1 + [] == one.1;
    assert Spend(Stock(7.0, 10.0), [a, b], cost, {KeyQ, KeyW}) == (first.0, one.1);
  }

  /** `handle_input`: walk the player's unit slots in order, and for each
      slot whose key was just released, pay for its unit and request it.
      There must be at most four slots: later slots have no key. */
  method HandleInput<U>(justReleased: set<KeyCode>, inventory: Inventory, playerUnits: seq<U>, cost: U -> u32)
    returns (events: seq<SpawnUnit<U>>)
    requires |playerUnits| <= 4
    modifies inventory.coins
    ensures (inventory.coins.Value(), events) == Spend(old(inventory.coins.Value()), playerUnits, cost, justReleased)
  {
    events := [];
    var index := 0;
    while index < |playerUnits|
      invariant 0 <= index <= |playerUnits|
      invariant (inventory.coins.Value(), events) ==
                Spend(old(inventory.coins.Value()), playerUnits[..index], cost, justReleased)
    {
      ghost var before := (inventory.coins.Value(), events);
      var unitType := playerUnits[index];
      var key := FromSlot(index).value.key;
      ghost var step := Step(before.0, index, unitType, cost, justReleased);
      if key in justReleased {
        var paid := inventory.coins.TryRemove(cost(unitType));
        if paid {
          events := events + [SpawnUnit(false, unitType)];
        }
      }
      assert step.1 == [] ==> before.1 + step.1 == before.1;
      assert playerUnits[..index + 1][..index] == playerUnits[..index];
      assert playerUnits[..index + 1][index] == unitType;
      index := index + 1;
    }
    assert playerUnits[..index] == playerUnits;
  }
}
