/** The backlog guard of `dispatcher.rs`: critical with hysteresis over the durable backlog's size and age. */
module BacklogGuard {
  import opened Common

  const U64_MAX: nat := 0xFFFF_FFFF_FFFF_FFFF
  const I64_MAX: int := 0x7FFF_FFFF_FFFF_FFFF
  const I64_MIN: int := -0x8000_0000_0000_0000

  // Durations are nanoseconds; the largest one is u64::MAX seconds and 999_999_999 nanoseconds.
  const MAX_DURATION: nat := U64_MAX * 1_000_000_000 + 999_999_999

  datatype Limits = Limits(maxPending: Option<nat>, maxAge: Option<nat>) {
    predicate InRange() {
      (maxPending.Some? ==> maxPending.value <= U64_MAX) && (maxAge.Some? ==> maxAge.value <= MAX_DURATION)
    }

    /** What `validate_config` accepts. */
    predicate Positive() {
      (maxPending.Some? ==> maxPending.value > 0) && (maxAge.Some? ==> maxAge.value > 0)
    }
  }

  /** The pending count and the receipt time of the oldest pending event, with the clock's reading. */
  datatype Observation = Observation(count: nat, oldest: Option<int>, now: int)

  /** Saturating on i64 and cut off at zero; milliseconds become nanoseconds. */
  function Age(o: Observation): nat {
    match o.oldest
    case None => 0
    case Some(oldest) => Max(Min(Max(o.now - oldest, I64_MIN), I64_MAX), 0) * 1_000_000
  }

  function CountRecovery(maximum: nat): nat { Min(maximum * 4, U64_MAX) / 5 }

  function AgeRecovery(maximum: nat): nat { (if maximum * 4 <= MAX_DURATION then maximum * 4 else maximum) / 5 }

  predicate Crossed(l: Limits, o: Observation) {
    || (l.maxPending.Some? && o.count >= l.maxPending.value)
    || (l.maxAge.Some? && Age(o) >= l.maxAge.value)
  }

  predicate Recovered(l: Limits, o: Observation) {
    && (l.maxPending.Some? ==> o.count <= CountRecovery(l.maxPending.value))
    && (l.maxAge.Some? ==> Age(o) <= AgeRecovery(l.maxAge.value))
  }

  class Guard {
    var critical: bool
    const limits: Limits
    ghost var history: seq<Observation>

    ghost predicate Valid() reads this {
      limits.InRange() && limits.Positive() && critical == CriticalAfter(limits, history)
    }

    constructor (limits: Limits)
      requires limits.InRange() && limits.Positive()
      ensures Valid() && !critical && history == [] && this.limits == limits
    {
      critical, history := false, [];
      this.limits := limits;
    }

    /** Critical exactly if one observation crossed a limit and none since recovered. */
    method Observe(o: Observation)
      requires Valid()
      modifies this
      ensures Valid() && history == old(history) + [o]
      ensures critical <==> exists i :: 0 <= i < |history| && CriticalSince(limits, history, i)
    {
      var age := Age(o);
      var crossed := (limits.maxPending.Some? && o.count >= limits.maxPending.value)
        || (limits.maxAge.Some? && age >= limits.maxAge.value);
      var recovered := (limits.maxPending.None? || o.count <= CountRecovery(limits.maxPending.value))
        && (limits.maxAge.None? || age <= AgeRecovery(limits.maxAge.value));
      critical := if critical then !recovered else crossed;
      assert (history + [o])[..|history|] == history;
      history := history + [o];
      CriticalExactlySinceACrossing(limits, history);
    }
  }

  function CriticalAfter(l: Limits, os: seq<Observation>): bool {
    if os == [] then false
    else
      var last := os[|os| - 1];
      if CriticalAfter(l, os[..|os| - 1]) then !Recovered(l, last) else Crossed(l, last)
  }

  /** The `i`-th observation crossed a limit and no later one recovered. */
  ghost predicate CriticalSince(l: Limits, os: seq<Observation>, i: nat)
    requires i < |os|
  {
    Crossed(l, os[i]) && forall j :: i < j < |os| ==> !Recovered(l, os[j])
  }

  /** Crossing and recovery exclude each other, under floor division and saturation, exactly for positive limits. */
  lemma CrossingExcludesRecovery(l: Limits)
    requires l.InRange()
    ensures l.Positive() <==> forall o :: !(Crossed(l, o) && Recovered(l, o))
  {
    if !l.Positive() {
      var o := Observation(0, None, 0);
      assert Crossed(l, o) && Recovered(l, o);
    }
  }

  lemma {:induction false} CriticalExactlySinceACrossing(l: Limits, os: seq<Observation>)
    requires l.InRange() && l.Positive()
    ensures CriticalAfter(l, os) <==> exists i :: 0 <= i < |os| && CriticalSince(l, os, i)
  {
    if os != [] {
      var n := |os| - 1;
      var rest := os[..n];
      CriticalExactlySinceACrossing(l, rest);
      CrossingExcludesRecovery(l);
      forall i | 0 <= i < n ensures CriticalSince(l, os, i) <==> CriticalSince(l, rest, i) && !Recovered(l, os[n]) {
        assert forall j :: i < j < n ==> rest[j] == os[j];
      }
      if CriticalAfter(l, rest) {
        var i :| 0 <= i < n && CriticalSince(l, rest, i);
        assert CriticalSince(l, os, i) <==> !Recovered(l, os[n]);
        assert Recovered(l, os[n]) ==> !CriticalSince(l, os, n);
      } else {
        assert CriticalSince(l, os, n) <==> Crossed(l, os[n]);
      }
    }
  }

  /** The count limit `observe_backlog` passes to the store. */
  function CountLimit(l: Limits): nat {
    Max(if l.maxPending.Some? then l.maxPending.value else 1_000_000, 1)
  }

  /** Counting no further than the limit never changes a decision. */
  lemma CappedCountDecidesTheSame(l: Limits, o: Observation)
    requires l.InRange() && l.Positive()
    ensures var capped := o.(count := Min(o.count, CountLimit(l)));
      Crossed(l, capped) == Crossed(l, o) && Recovered(l, capped) == Recovered(l, o)
  {
    if l.maxPending.Some? {
      assert CountRecovery(l.maxPending.value) < l.maxPending.value;
    }
  }

  // ---- the thresholds in plain terms ----

  /** What a `Timestamp` can hold: the years 1 to 9999, in milliseconds. */
  predicate IsTimestamp(t: int) { -62_135_596_800_000 <= t <= 253_402_300_799_999 }

  /** An age limit is crossed exactly if the oldest pending event was received that long ago, to the nanosecond; a
      clock behind it is an age of zero, and so is an empty backlog. */
  lemma AgeIsCrossedInTime(maximum: nat, o: Observation)
    requires IsTimestamp(o.now) && (o.oldest.Some? ==> IsTimestamp(o.oldest.value)) && maximum > 0
    ensures Crossed(Limits(None, Some(maximum)), o) <==>
      o.oldest.Some? && (o.now - o.oldest.value) * 1_000_000 >= maximum
  {
  }

  /** Recovery is at four fifths: of the count always, up to the saturation of 64 bits, and of the age unless four
      times the maximum is no duration any more, where it is one fifth. */
  lemma RecoveryIsFourFifths(maximum: nat, o: Observation)
    requires maximum <= U64_MAX && IsTimestamp(o.now) && (o.oldest.Some? ==> IsTimestamp(o.oldest.value))
    ensures Recovered(Limits(Some(maximum), None), o) <==> 5 * o.count <= 4 * maximum && 5 * o.count <= U64_MAX
  {
  }

  lemma AgeRecoveryIsFourFifths(maximum: nat, o: Observation)
    requires IsTimestamp(o.now) && (o.oldest.Some? ==> IsTimestamp(o.oldest.value))
    ensures
      var elapsed := if o.oldest.Some? && o.now > o.oldest.value then (o.now - o.oldest.value) * 1_000_000 else 0;
      Recovered(Limits(None, Some(maximum)), o) <==>
      5 * elapsed <= if 4 * maximum <= MAX_DURATION then 4 * maximum else maximum
  {
  }
}
