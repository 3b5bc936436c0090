/** Version 0.6.0 of the plugin: instead of enlarging the stagger threshold it
    divides the stagger damage a player takes by the configured multiplier. */
module LegacyDivisor {
  import opened Wrappers
  import opened Clamping
  import opened Host

  const DefaultDivisor: real := 1.60
  const MinDivisor: real := 0.50
  const MaxDivisor: real := 3.00
  /** The smallest divisor the prefix is willing to divide by. */
  const GuardDivisor: real := 0.01

  /** `CEnabled?.Value ?? true`: the local entry's value, on when there is no entry. */
  function IsEnabled(cEnabled: Option<bool>): (r: bool)
    ensures cEnabled.Some? ==> r == cEnabled.value
    ensures cEnabled.None? ==> r
  {
    cEnabled.GetOr(true)
  }

  /** The divisor: the entry's value (1.60 without an entry) clamped into [0.50, 3.00]. */
  function GetDivisor(cMultiplier: Option<real>): (r: real)
    ensures MinDivisor <= r <= MaxDivisor
    ensures cMultiplier.None? ==> r == DefaultDivisor
    ensures cMultiplier.Some? && MinDivisor <= cMultiplier.value <= MaxDivisor ==> r == cMultiplier.value
    ensures cMultiplier.Some? && cMultiplier.value < MinDivisor ==> r == MinDivisor
    ensures cMultiplier.Some? && cMultiplier.value > MaxDivisor ==> r == MaxDivisor
  {
    Clamp(cMultiplier.GetOr(DefaultDivisor), MinDivisor, MaxDivisor)
  }

  /** Whether the prefix rescales the damage: a player (a null instance is not) with
      the plugin enabled. */
  predicate Divides(instance: Option<Character>, cEnabled: Option<bool>)
  {
    instance.Some? && instance.value.isPlayer && IsEnabled(cEnabled)
  }

  /** The prefix on `Character.AddStaggerDamage`: the new value of `damage`. */
  function Prefix(instance: Option<Character>, cEnabled: Option<bool>,
                  cMultiplier: Option<real>, damage: real): (r: real)
    ensures !Divides(instance, cEnabled) ==> r == damage
    ensures Divides(instance, cEnabled) ==> r == damage / GetDivisor(cMultiplier)
  {
    if !(instance.Some? && instance.value.isPlayer) then damage
    else if !IsEnabled(cEnabled) then damage
    else
      var div := GetDivisor(cMultiplier);
      if div <= GuardDivisor then damage else damage / div
  }

  /** The prefix's early return for a tiny divisor can never be taken. */
  lemma DivisorGuardUnreachable(cMultiplier: Option<real>)
    ensures GetDivisor(cMultiplier) > GuardDivisor
  {
  }

  /** Non-negative damage ends up between a third of itself and twice itself,
      whatever the configuration. */
  lemma PrefixBounds(instance: Option<Character>, cEnabled: Option<bool>,
                     cMultiplier: Option<real>, damage: real)
    requires 0.0 <= damage
    ensures damage / MaxDivisor <= Prefix(instance, cEnabled, cMultiplier, damage) <= 2.0 * damage
  {
    if Divides(instance, cEnabled) {
      DividedWithin(damage, GetDivisor(cMultiplier), MinDivisor, MaxDivisor);
    }
  }

  /** Dividing a non-negative value by a divisor inside [lo, hi], lo positive, lands
      inside [x / hi, x / lo]. */
  lemma DividedWithin(x: real, d: real, lo: real, hi: real)
    requires 0.0 <= x && 0.0 < lo <= d <= hi
    ensures x / hi <= x / d <= x / lo
  {
    assert x / d - x / hi == x * (hi - d) / (d * hi);
    assert x / lo - x / d == x * (d - lo) / (lo * d);
  }
}
