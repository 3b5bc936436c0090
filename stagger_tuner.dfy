/** Version 0.8.3 of the plugin: which configuration value is in effect, and how the
    player's stagger threshold is scaled by it. The static configuration handles the
    accessors read are passed in as an `Entries` value; a null handle is `None`. */
module StaggerTuner {
  import opened Wrappers
  import opened Clamping
  import opened Host

  const DefaultThreshMult: real := 1.60
  const MinThreshMult: real := 0.50
  const MaxThreshMult: real := 3.00

  /** The current values of the synchronised entries (`SS_*`) and of the local
      entries (`C*`), each absent while its handle is null. */
  datatype Entries = Entries(
    ssEnabled: Option<bool>,
    cEnabled: Option<bool>,
    ssThreshMult: Option<real>,
    cThreshMult: Option<real>)

  /** Whether stagger tuning is on: the synchronised entry wins over the local one,
      and with neither present the plugin is on. */
  function IsEnabled(e: Entries): (r: bool)
    ensures e.ssEnabled.Some? ==> r == e.ssEnabled.value
    ensures e.ssEnabled.None? && e.cEnabled.Some? ==> r == e.cEnabled.value
    ensures e.ssEnabled.None? && e.cEnabled.None? ==> r
  {
    e.ssEnabled.Or(e.cEnabled).GetOr(true)
  }

  /** The multiplier before clamping: synchronised value, else local value, else 1.60. */
  function SourceThreshMult(e: Entries): (r: real)
    ensures e.ssThreshMult.Some? ==> r == e.ssThreshMult.value
    ensures e.ssThreshMult.None? && e.cThreshMult.Some? ==> r == e.cThreshMult.value
    ensures e.ssThreshMult.None? && e.cThreshMult.None? ==> r == DefaultThreshMult
  {
    e.ssThreshMult.Or(e.cThreshMult).GetOr(DefaultThreshMult)
  }

  /** The effective threshold multiplier: always within [0.50, 3.00]; a source value
      inside that range, bounds included, is used as it is, one below is raised to
      0.50 and one above is lowered to 3.00. */
  function ThreshMult(e: Entries): (r: real)
    ensures MinThreshMult <= r <= MaxThreshMult
    ensures MinThreshMult <= SourceThreshMult(e) <= MaxThreshMult ==> r == SourceThreshMult(e)
    ensures SourceThreshMult(e) < MinThreshMult ==> r == MinThreshMult
    ensures SourceThreshMult(e) > MaxThreshMult ==> r == MaxThreshMult
  {
    Clamp(SourceThreshMult(e), MinThreshMult, MaxThreshMult)
  }

  /** `GetThreshMult`, assigning its local step by step as the accessor does. */
  method GetThreshMult(e: Entries) returns (x: real)
    ensures x == ThreshMult(e)
    ensures MinThreshMult <= x <= MaxThreshMult
  {
    x := DefaultThreshMult;
    if e.ssThreshMult.Some? {
      x := e.ssThreshMult.value;
    } else if e.cThreshMult.Some? {
      x := e.cThreshMult.value;
    }
    if x < MinThreshMult {
      x := MinThreshMult;
    } else if x > MaxThreshMult {
      x := MaxThreshMult;
    }
  }

  /** Whether the postfix scales the threshold of `instance`. A null instance makes
      `IsPlayer()` throw; the postfix catches that and leaves the result alone. */
  predicate Scales(e: Entries, instance: Option<Character>)
  {
    IsEnabled(e) && instance.Some? && instance.value.isPlayer
  }

  /** The postfix on `Character.GetStaggerTreshold`: the new value of `__result`. */
  function Postfix(e: Entries, instance: Option<Character>, result: real): (r: real)
    ensures !Scales(e, instance) ==> r == result
    ensures Scales(e, instance) ==> r == result * ThreshMult(e)
  {
    if !IsEnabled(e) then result
    else match instance
      case None => result
      case Some(c) => if !c.isPlayer then result else result * ThreshMult(e)
  }

  /** A non-negative threshold always ends up between half and three times its
      vanilla value. */
  lemma PostfixBounds(e: Entries, instance: Option<Character>, result: real)
    requires 0.0 <= result
    ensures MinThreshMult * result <= Postfix(e, instance, result) <= MaxThreshMult * result
  {
    var r := Postfix(e, instance, result);
    if Scales(e, instance) {
      ScaledWithin(result, ThreshMult(e), MinThreshMult, MaxThreshMult, r);
    }
  }

  /** The postfix keeps the order of thresholds: a bigger vanilla bar stays bigger. */
  lemma PostfixMonotone(e: Entries, instance: Option<Character>, a: real, b: real)
    requires a <= b
    ensures Postfix(e, instance, a) <= Postfix(e, instance, b)
  {
    if Scales(e, instance) {
      var m := ThreshMult(e);
      assert a * m <= b * m by {
        assert b * m - a * m == (b - a) * m;
      }
    }
  }

  /** Scaling a non-negative value by a factor inside [lo, hi] lands inside [lo * x, hi * x]. */
  lemma ScaledWithin(x: real, m: real, lo: real, hi: real, r: real)
    requires 0.0 <= x && lo <= m <= hi && r == x * m
    ensures lo * x <= r <= hi * x
  {
    assert x * m - lo * x == (m - lo) * x;
    assert hi * x - x * m == (hi - m) * x;
  }

  /** The hot-reload gate of `SoftReloadAndResync`: reload only on a server that is
      the source of truth and is not applying a ServerSync update (echo suppression). */
  function ShouldReload(znet: Option<ZNet>, sync: Option<ConfigSync>): (r: bool)
    ensures r <==> znet.Some? && znet.value.isServer
                   && sync.Some? && sync.value.isSourceOfTruth
                   && !sync.value.processingServerUpdate
  {
    if znet.None? || !znet.value.isServer then false
    else if sync.None? then false
    else if !sync.value.isSourceOfTruth then false
    else if sync.value.processingServerUpdate then false
    else true
  }
}
