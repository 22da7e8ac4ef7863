/** Savings accumulation (updateTargetStatus in
    internal/adapters/driving/reconciler/target_reconciler.go), over reals. */
module Savings {
  import opened Domain

  const HOUR := 3_600_000_000_000
  const CHECKPOINT_INTERVAL := 300_000_000_000

  /** Requests captured with the snapshot. */
  datatype Resources = Resources(cpuMillicores: int, memoryMiB: int)

  datatype Totals = Totals(cpuHours: real, memoryGiBHours: real, cost: real)

  /** The fields of the status this computation reads and writes. */
  datatype Meter = Meter(desired: Option<PowerState>, lastReconciliation: Option<int>, totals: Totals)

  /** One status update: the new decision, the clock, the observation and the snapshot. */
  datatype Update = Update(desired: Option<PowerState>, now: int, observedOff: bool, snapshot: Option<Resources>)

  function Hours(nanoseconds: int): real {
    nanoseconds as real / HOUR as real
  }

  function Cores(u: Update): real {
    if u.snapshot.Some? && u.snapshot.value.cpuMillicores > 0
    then u.snapshot.value.cpuMillicores as real / 1000.0 else 0.25
  }

  function GiB(u: Update): real {
    if u.snapshot.Some? && u.snapshot.value.cpuMillicores > 0
    then u.snapshot.value.memoryMiB as real / 1024.0 else 0.5
  }

  predicate Checkpoints(m: Meter, u: Update) {
    || m.lastReconciliation.None?
    || u.now - m.lastReconciliation.value >= CHECKPOINT_INTERVAL
    || m.desired != u.desired
  }

  /** Hours this update adds to the bill: only off time between two checkpoints less than an hour apart. */
  function Counted(m: Meter, u: Update): real {
    if Checkpoints(m, u) && u.desired == Some(Off) && u.observedOff && m.lastReconciliation.Some? then
      var hours := Hours(u.now - m.lastReconciliation.value);
      if 0.0 < hours < 1.0 then hours else 0.0
    else 0.0
  }

  /** `hours` more of that many cores and GiB, at the fixed rates. */
  function Accrue(t: Totals, cores: real, memory: real, hours: real): Totals {
    Totals(t.cpuHours + cores * hours, t.memoryGiBHours + memory * hours, t.cost + (cores * 0.032 + memory * 0.004) * hours)
  }

  function Step(m: Meter, u: Update): Meter {
    var hours := Counted(m, u);
    Meter(u.desired, if Checkpoints(m, u) then Some(u.now) else m.lastReconciliation,
          if hours == 0.0 then m.totals else Accrue(m.totals, Cores(u), GiB(u), hours))
  }

  class TargetStatus {
    var meter: Meter

    constructor ()
      ensures meter == Meter(None, None, Totals(0.0, 0.0, 0.0))
    {
      meter := Meter(None, None, Totals(0.0, 0.0, 0.0));
    }

    method UpdateTargetStatus(u: Update)
      modifies this
      ensures meter == Step(old(meter), u)
    {
      hide Accrue, Hours;
      var previousDesired := meter.desired;
      meter := meter.(desired := u.desired);
      var checkpoint := meter.lastReconciliation.None?
        || u.now - meter.lastReconciliation.value >= CHECKPOINT_INTERVAL
        || previousDesired != u.desired;
      if checkpoint {
        if u.desired == Some(Off) && u.observedOff && meter.lastReconciliation.Some? {
          var hours := Hours(u.now - meter.lastReconciliation.value);
          if 0.0 < hours < 1.0 {
            var cores, memory := 0.25, 0.5;
            if u.snapshot.Some? && u.snapshot.value.cpuMillicores > 0 {
              cores := u.snapshot.value.cpuMillicores as real / 1000.0;
              memory := u.snapshot.value.memoryMiB as real / 1024.0;
            }
            meter := meter.(totals := Accrue(meter.totals, cores, memory, hours));
          }
        }
        meter := meter.(lastReconciliation := Some(u.now));
      }
    }
  }

  // ---------------------------------------------------------------- every run of updates

  function Run(m: Meter, us: seq<Update>): Meter {
    if us == [] then m else Step(Run(m, us[..|us| - 1]), us[|us| - 1])
  }

  function CountedHours(m: Meter, us: seq<Update>): real {
    if us == [] then 0.0
    else CountedHours(m, us[..|us| - 1]) + Counted(Run(m, us[..|us| - 1]), us[|us| - 1])
  }

  predicate Ordered(m: Meter, us: seq<Update>) {
    && (forall i, j :: 0 <= i <= j < |us| ==> us[i].now <= us[j].now)
    && (m.lastReconciliation.Some? && us != [] ==> m.lastReconciliation.value <= us[0].now)
  }

  predicate NonNegativeRequests(us: seq<Update>) {
    forall i :: 0 <= i < |us| && us[i].snapshot.Some? ==> us[i].snapshot.value.memoryMiB >= 0
  }

  lemma LastIsPast(m: Meter, us: seq<Update>)
    requires Ordered(m, us) && us != []
    ensures var last := Run(m, us).lastReconciliation;
            last.Some? ==> last.value <= us[|us| - 1].now
    decreases |us|
  {
    var front := us[..|us| - 1];
    if front != [] {
      LastIsPast(m, front);
    }
  }

  lemma HoursAdd(a: int, b: int)
    ensures Hours(a + b) == Hours(a) + Hours(b)
    ensures a <= b ==> Hours(a) <= Hours(b)
  {
  }

  /** Counted hours telescope: they never exceed the distance between the first and the
      last checkpoint. */
  lemma {:induction false} CountedHoursTelescope(m: Meter, us: seq<Update>)
    requires Ordered(m, us) && m.lastReconciliation.Some?
    ensures Run(m, us).lastReconciliation.Some?
    ensures 0.0 <= CountedHours(m, us) <= Hours(Run(m, us).lastReconciliation.value - m.lastReconciliation.value)
    decreases |us|
  {
    if us != [] {
      var front, u := us[..|us| - 1], us[|us| - 1];
      CountedHoursTelescope(m, front);
      var before := Run(m, front);
      if front != [] {
        LastIsPast(m, front);
      }
      var elapsed := u.now - before.lastReconciliation.value;
      HoursAdd(before.lastReconciliation.value - m.lastReconciliation.value, elapsed);
      HoursAdd(0, elapsed);
    }
  }

  lemma Scale(a: real, b: real, h: real)
    requires 0.0 <= h && a <= b
    ensures a * h <= b * h
  {
  }

  lemma Commute(a: real, b: real, c: real)
    ensures a * b == b * a && a * c == c * a
  {
  }

  lemma Price(cores: real, memory: real, h: real)
    ensures (cores * 0.032 + memory * 0.004) * h == 0.032 * (cores * h) + 0.004 * (memory * h)
  {
  }

  lemma AccrueLaws(t: Totals, cores: real, memory: real, hours: real, cap: real)
    requires 0.0 <= cores <= cap && 0.0 <= memory && 0.0 <= hours
    ensures var t' := Accrue(t, cores, memory, hours);
            && t.cpuHours <= t'.cpuHours <= t.cpuHours + cap * hours
            && t.memoryGiBHours <= t'.memoryGiBHours && t.cost <= t'.cost
            && t'.cost - 0.032 * t'.cpuHours - 0.004 * t'.memoryGiBHours == t.cost - 0.032 * t.cpuHours - 0.004 * t.memoryGiBHours
  {
    Scale(0.0, cores, hours);
    Scale(cores, cap, hours);
    Scale(0.0, memory, hours);
    Price(cores, memory, hours);
  }

  lemma Rates(u: Update)
    requires u.snapshot.Some? ==> u.snapshot.value.memoryMiB >= 0
    ensures 0.0 <= Cores(u) && 0.0 <= GiB(u)
  {
  }

  lemma StepLaws(m: Meter, u: Update, cap: real)
    requires u.snapshot.Some? ==> u.snapshot.value.memoryMiB >= 0
    requires Cores(u) <= cap
    ensures var (t, t') := (m.totals, Step(m, u).totals);
            && 0.0 <= Counted(m, u)
            && t.cpuHours <= t'.cpuHours <= t.cpuHours + cap * Counted(m, u)
            && t.memoryGiBHours <= t'.memoryGiBHours && t.cost <= t'.cost
            && (t.cost == 0.032 * t.cpuHours + 0.004 * t.memoryGiBHours ==>
                  t'.cost == 0.032 * t'.cpuHours + 0.004 * t'.memoryGiBHours)
  {
    assert 0.0 <= Counted(m, u);
    Rates(u);
    hide Accrue, Counted, Cores, GiB;
    AccrueLaws(m.totals, Cores(u), GiB(u), Counted(m, u), cap);
  }

  /** Savings never decrease, cost is always 0.032 per CPU-hour plus 0.004 per GiB-hour,
      and CPU-hours are bounded by the largest core count seen times the counted hours. */
  lemma {:induction false} SavingsLaws(m: Meter, us: seq<Update>, cap: real)
    requires NonNegativeRequests(us)
    requires forall i :: 0 <= i < |us| ==> Cores(us[i]) <= cap
    ensures var (t, t') := (m.totals, Run(m, us).totals);
            && t.cpuHours <= t'.cpuHours <= t.cpuHours + cap * CountedHours(m, us)
            && t.memoryGiBHours <= t'.memoryGiBHours && t.cost <= t'.cost
            && (t.cost == 0.032 * t.cpuHours + 0.004 * t.memoryGiBHours ==>
                  t'.cost == 0.032 * t'.cpuHours + 0.004 * t'.memoryGiBHours)
    decreases |us|
  {
    hide Step, Counted, Cores;
    if us != [] {
      var front, u := us[..|us| - 1], us[|us| - 1];
      SavingsLaws(m, front, cap);
      StepLaws(Run(m, front), u, cap);
      Distribute(cap, CountedHours(m, front), Counted(Run(m, front), u));
    } else {
      assert cap * 0.0 == 0.0;
    }
  }

  lemma Distribute(a: real, b: real, c: real)
    ensures a * (b + c) == a * b + a * c
  {
  }

  /** The first checkpoint of a run: the one before it, or else its first update. */
  function FirstCheckpoint(m: Meter, us: seq<Update>): int
    requires m.lastReconciliation.Some? || us != []
  {
    if m.lastReconciliation.Some? then m.lastReconciliation.value else us[0].now
  }

  lemma {:induction false} RunFromFirst(m: Meter, us: seq<Update>)
    requires us != []
    ensures Run(m, us) == Run(Step(m, us[0]), us[1..])
    decreases |us|
  {
    hide Step;
    var front := us[..|us| - 1];
    if |us| == 1 {
      assert Run(m, front) == m && us[1..] == [];
    } else {
      RunFromFirst(m, front);
      assert us[1..][..|us[1..]| - 1] == front[1..];
    }
  }

  /** Whatever was saved in a run was saved between its first checkpoint and its last: at
      most the largest core count times that span, priced at the fixed rates. */
  lemma SavedWithinSpan(m: Meter, us: seq<Update>, cap: real)
    requires m.totals == Totals(0.0, 0.0, 0.0) && (m.lastReconciliation.Some? || us != []) && 0.0 <= cap
    requires Ordered(m, us) && NonNegativeRequests(us) && forall i :: 0 <= i < |us| ==> Cores(us[i]) <= cap
    ensures var r := Run(m, us);
            && r.lastReconciliation.Some?
            && 0.0 <= r.totals.cpuHours <= cap * Hours(r.lastReconciliation.value - FirstCheckpoint(m, us))
            && r.totals.cost == 0.032 * r.totals.cpuHours + 0.004 * r.totals.memoryGiBHours
  {
    hide Run, Step, Cores, Hours;
    if m.lastReconciliation.Some? {
      SavedSinceCheckpoint(m, us, cap);
    } else {
      RunFromFirst(m, us);
      FirstUpdate(m, us[0]);
      SavedSinceCheckpoint(Step(m, us[0]), us[1..], cap);
    }
  }

  lemma FirstUpdate(m: Meter, u: Update)
    requires m.lastReconciliation.None?
    ensures Step(m, u) == Meter(u.desired, Some(u.now), m.totals)
  {
    hide Accrue;
  }

  lemma SavedSinceCheckpoint(m: Meter, us: seq<Update>, cap: real)
    requires m.totals == Totals(0.0, 0.0, 0.0) && m.lastReconciliation.Some? && 0.0 <= cap
    requires Ordered(m, us) && NonNegativeRequests(us) && forall i :: 0 <= i < |us| ==> Cores(us[i]) <= cap
    ensures var r := Run(m, us);
            && r.lastReconciliation.Some?
            && 0.0 <= r.totals.cpuHours <= cap * Hours(r.lastReconciliation.value - m.lastReconciliation.value)
            && r.totals.cost == 0.032 * r.totals.cpuHours + 0.004 * r.totals.memoryGiBHours
  {
    hide Run, CountedHours, Cores, Hours, Ordered;
    SavingsLaws(m, us, cap);
    CountedHoursTelescope(m, us);
    var span := Hours(Run(m, us).lastReconciliation.value - m.lastReconciliation.value);
    Scale(CountedHours(m, us), span, cap);
    Commute(cap, CountedHours(m, us), span);
  }

  // ---------------------------------------------------------------- the exact gain

  /** One update adds exactly the hours since the last checkpoint, times the snapshot's cores
      and GiB (or a quarter core and half a GiB), when the target is to be off, is off, at
      least five minutes passed or the decision changed, and less than an hour did; in every
      other case it adds nothing. */
  lemma GainOfOneUpdate(m: Meter, u: Update)
    ensures var t, t' := m.totals, Step(m, u).totals;
            if m.lastReconciliation.Some? && u.desired == Some(Off) && u.observedOff
               && 0 < u.now - m.lastReconciliation.value < 3_600_000_000_000
               && (u.now - m.lastReconciliation.value >= 300_000_000_000 || m.desired != u.desired) then
              var hours := (u.now - m.lastReconciliation.value) as real / 3_600_000_000_000.0;
              var measured := u.snapshot.Some? && u.snapshot.value.cpuMillicores > 0;
              var cores := if measured then u.snapshot.value.cpuMillicores as real / 1000.0 else 0.25;
              var memory := if measured then u.snapshot.value.memoryMiB as real / 1024.0 else 0.5;
              && t'.cpuHours == t.cpuHours + cores * hours && t'.memoryGiBHours == t.memoryGiBHours + memory * hours
              && t'.cost == t.cost + (cores * 0.032 + memory * 0.004) * hours
            else t' == t
    ensures Step(m, u).lastReconciliation ==
              if m.lastReconciliation.None? || u.now - m.lastReconciliation.value >= 300_000_000_000 || m.desired != u.desired
              then Some(u.now) else m.lastReconciliation
  {
    if m.lastReconciliation.Some? {
      HourBounds(u.now - m.lastReconciliation.value);
    }
  }

  lemma HourBounds(elapsed: int)
    ensures Hours(elapsed) == elapsed as real / 3_600_000_000_000.0
    ensures 0.0 < Hours(elapsed) <==> 0 < elapsed
    ensures Hours(elapsed) < 1.0 <==> elapsed < 3_600_000_000_000
  {
  }
}
