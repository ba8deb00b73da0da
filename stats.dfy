/**
 * Unit statistics: the health of a unit and the record of its combat
 * values. Health values are `f32` in the source and `real` here.
 */
module Stats {

  /** The value held by a `Health`. */
  datatype HealthValue = HealthValue(current: real, max: real) {

    /** A unit at zero health or below is dead. */
    predicate IsDead() { current <= 0.0 }

    /** The health after one hit of `damage`. */
    function Damaged(damage: real): (h: HealthValue)
      ensures h.max == max
      ensures current - h.current == damage
      ensures damage >= 0.0 ==> h.current <= current
    {
      HealthValue(current - damage, max)
    }
  }

  /** `from_max`: a unit starts at full health. */
  function Full(max: real): (h: HealthValue)
    ensures h.current == h.max == max
    ensures h.IsDead() <==> max <= 0.0
  {
    HealthValue(max, max)
  }

  /** The sum of a sequence of damages. */
  function Total(damages: seq<real>): real
  {
    if damages == [] then 0.0 else damages[0] + Total(damages[1..])
  }

  /** The health after the hits `damages`, taken in order. */
  function Hits(h: HealthValue, damages: seq<real>): HealthValue
    decreases |damages|
  {
    if damages == [] then h else Hits(h.Damaged(damages[0]), damages[1..])
  }

  predicate NonNegative(damages: seq<real>)
  {
    forall i :: 0 <= i < |damages| ==> damages[i] >= 0.0
  }

  /** Two hits in a row are one hit of their sum. */
  lemma DamageAdds(h: HealthValue, d1: real, d2: real)
    ensures h.Damaged(d1).Damaged(d2) == h.Damaged(d1 + d2)
  {
  }

  /** Any sequence of hits is one hit of their total. */
  lemma {:induction false} HitsAreTotal(h: HealthValue, damages: seq<real>)
    ensures Hits(h, damages) == h.Damaged(Total(damages))
    decreases |damages|
  {
    if damages != [] {
      HitsAreTotal(h.Damaged(damages[0]), damages[1..]);
    }
  }

  lemma {:induction false} TotalNonNegative(damages: seq<real>)
    requires NonNegative(damages)
    ensures Total(damages) >= 0.0
  {
    if damages != [] {
      TotalNonNegative(damages[1..]);
    }
  }

  /** Starting from full health, non-negative hits never take health above
      its maximum, and never change the maximum. */
  lemma NeverAboveMax(max: real, damages: seq<real>)
    requires NonNegative(damages)
    ensures Hits(Full(max), damages).max == max
    ensures Hits(Full(max), damages).current <= max
  {
    HitsAreTotal(Full(max), damages);
    TotalNonNegative(damages);
  }

  /** A dead unit that takes further non-negative hits stays dead. */
  lemma StaysDead(h: HealthValue, damages: seq<real>)
    requires h.IsDead() && NonNegative(damages)
    ensures Hits(h, damages).IsDead()
  {
    HitsAreTotal(h, damages);
    TotalNonNegative(damages);
  }

  /** A unit with health 5 is alive after a hit of 2 and dead after a
      further hit of 3: exactly zero health is dead. */
  lemma DeadAtExactlyZero()
    ensures !Hits(Full(5.0), [2.0]).IsDead()
    ensures Hits(Full(5.0), [2.0, 3.0]).current == 0.0
    ensures Hits(Full(5.0), [2.0, 3.0]).IsDead()
  {
    HitsAreTotal(Full(5.0), [2.0, 3.0]);
  }

  /** The health of a unit, changed in place by the hits it takes. */
  class Health {
    var current: real
    var max: real

    function Value(): HealthValue
      reads this
    {
      HealthValue(current, max)
    }

    /** Full health of `max`. */
    constructor FromMax(max: real)
      ensures Value() == Full(max)
    {
      current := max;
      this.max := max;
    }

    predicate IsDead()
      reads this
      ensures IsDead() <==> Value().IsDead()
    {
      current <= 0.0
    }

    /** Take a hit: the current health drops by exactly `damage`. */
    method ApplyDamage(damage: real)
      modifies this`current
      ensures Value() == old(Value()).Damaged(damage)
    {
      current := current - damage;
    }
  }

  /** The combat values of a unit. */
  datatype UnitStats = UnitStats(health: Health, speed: real, attackRange: real, attackDamage: real)
}
