/**
 * The capped resource counter of the game's economy (`Item`) and the
 * player's inventory that holds one of them (`Inventory`).
 *
 * The source stores `count` and `capacity` as 32-bit floats; here they are
 * `real`, so rounding is not modelled. The `as u32` casts of the source are
 * modelled exactly (clamp at zero, round down, saturate at `u32::MAX`).
 */
module Inventory {

  newtype u32 = x: int | 0 <= x < 0x1_0000_0000

  const U32Max: int := 0xFFFF_FFFF

  function Min(a: real, b: real): real { if a <= b then a else b }
  function Max(a: real, b: real): real { if a <= b then b else a }

  /** `x.max(0.).floor() as u32`: negative values become 0, the rest are
      rounded down, and values past the top of the range saturate. */
  function FloorU32(x: real): (n: u32)
    ensures x < 1.0 ==> n == 0
    ensures 0.0 <= x < U32Max as real + 1.0 ==> n as real <= x < n as real + 1.0
    ensures x >= U32Max as real ==> n as int == U32Max
  {
    if x <= 0.0 then 0
    else if x >= U32Max as real then U32Max as u32
    else x.Floor as u32
  }

  /** The value held by an `Item`: what the counter holds and how much it may hold. */
  datatype Stock = Stock(count: real, capacity: real) {

    /** The state every `Item` built by the game is in, and that adding a
        non-negative amount or removing keeps. */
    predicate Valid() { 0.0 <= count <= capacity }

    /** `add_until_full`: the new stock and the part of `amount` that did not fit. */
    function AddUntilFull(amount: real): (r: (Stock, real))
      ensures r.0.capacity == capacity
      ensures r.0.count == Min(count + amount, capacity)
      ensures r.1 == Max(0.0, count + amount - capacity)
    {
      var total := count + amount;
      if total >= capacity then (Stock(capacity, capacity), total - capacity)
      else (Stock(total, capacity), 0.0)
    }

    /** `try_remove`: the new stock and whether the removal took place. */
    function TryRemove(amount: u32): (r: (Stock, bool))
      ensures r.1 <==> amount as real <= count
      ensures r.0.capacity == capacity
      ensures r.1 ==> r.0.count + amount as real == count
      ensures !r.1 ==> r.0 == this
    {
      if count >= amount as real then (Stock(count - amount as real, capacity), true)
      else (this, false)
    }
  }

  /** Nothing is lost or created by `add_until_full`: what is kept plus what
      is handed back is what was there plus what was offered. */
  lemma AddUntilFullConserves(s: Stock, amount: real)
    ensures var r := s.AddUntilFull(amount); r.0.count + r.1 == s.count + amount
  {
  }

  /** Offering a non-negative amount to a valid stock keeps it valid, never
      takes anything away, and hands back a non-negative overflow. */
  lemma AddUntilFullKeepsValid(s: Stock, amount: real)
    requires s.Valid() && amount >= 0.0
    ensures var r := s.AddUntilFull(amount); r.0.Valid() && r.1 >= 0.0 && r.0.count >= s.count
  {
  }

  /** A removal never leaves a valid stock invalid; in particular the count
      never becomes negative. */
  lemma TryRemoveKeepsValid(s: Stock, amount: u32)
    requires s.Valid()
    ensures s.TryRemove(amount).0.Valid()
  {
  }

  /** Removing what was just added without overflow gives the old stock back. */
  lemma TryRemoveUndoesAdd(s: Stock, amount: u32)
    requires s.Valid() && s.count + amount as real < s.capacity
    ensures s.AddUntilFull(amount as real).0.TryRemove(amount) == (s, true)
  {
  }

  /** The unit test `add_until_full_not_reaching_capacity`. */
  lemma AddUntilFullNotReachingCapacity()
    ensures var r := Stock(2.0, 10.0).AddUntilFull(5.0); FloorU32(r.0.count) == 7 && FloorU32(r.1) == 0
  {
  }

  /** The unit test `add_until_full_reaching_capacity`. */
  lemma AddUntilFullReachingCapacity()
    ensures var r := Stock(5.0, 10.0).AddUntilFull(10.0); FloorU32(r.0.count) == 10 && FloorU32(r.1) == 5
  {
  }

  /** The unit test `try_remove_successful`. */
  lemma TryRemoveSuccessful()
    ensures var r := Stock(8.0, 10.0).TryRemove(5); FloorU32(r.0.count) == 3 && r.1
  {
  }

  /** The unit test `try_remove_failure`. */
  lemma TryRemoveFailure()
    ensures var r := Stock(3.0, 10.0).TryRemove(5); FloorU32(r.0.count) == 3 && !r.1
  {
  }

  /** A counter that can be filled up to a capacity and spent from. */
  class Item {
    var count: real
    var capacity: real

    function Value(): Stock
      reads this
    {
      Stock(count, capacity)
    }

    /** An empty counter of the given capacity. */
    constructor Empty(capacity: u32)
      ensures Value() == Stock(0.0, capacity as real)
      ensures Value().Valid()
    {
      count := 0.0;
      this.capacity := capacity as real;
    }

    /** A counter with the given contents (used by the unit tests). */
    constructor New(count: u32, capacity: u32)
      ensures Value() == Stock(count as real, capacity as real)
      ensures Value().Valid() <==> count <= capacity
    {
      this.count := count as real;
      this.capacity := capacity as real;
    }

    /** The whole number of items held, never negative. */
    function Count(): (n: u32)
      reads this
      ensures count <= 0.0 ==> n == 0
      ensures n == FloorU32(count)
    {
      FloorU32(count)
    }

    /** The whole-number capacity, never negative. */
    function Capacity(): (n: u32)
      reads this
      ensures capacity <= 0.0 ==> n == 0
      ensures n == FloorU32(capacity)
    {
      FloorU32(capacity)
    }

    /** Add until the capacity is reached and return the rest. */
    method AddUntilFull(amount: real) returns (rest: real)
      modifies this`count
      ensures (Value(), rest) == old(Value()).AddUntilFull(amount)
      ensures old(Value().Valid()) && amount >= 0.0 ==> Value().Valid() && rest >= 0.0
    {
      var total := count + amount;
      if total >= capacity {
        count := capacity;
        rest := total - capacity;
      } else {
        count := total;
        rest := 0.0;
      }
    }

    /** Remove `amount` if that much is held; otherwise change nothing. */
    method TryRemove(amount: u32) returns (removed: bool)
      modifies this`count
      ensures (Value(), removed) == old(Value()).TryRemove(amount)
      ensures old(Value().Valid()) ==> Value().Valid()
    {
      if count >= amount as real {
        count := count - amount as real;
        removed := true;
      } else {
        removed := false;
      }
    }
  }

  /** The player's resources. */
  class Inventory {
    const coins: Item

    constructor (coins: Item)
      ensures this.coins == coins
    {
      this.coins := coins;
    }
  }
}
