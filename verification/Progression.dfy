/** Timestamp accrual, Heat decay, the level-up loop and standard gear. */
module Progression {
  import opened Grid

  function LevelDuration(r: Rules, level: Level): (d: int)
    ensures d >= 1
  {
    Max(1, r.baseLevelSeconds + (level - 1) * r.levelStepSeconds)
  }

  /** The Mk rating of standard gear installed at a level. */
  function GearTier(level: Level): int { 1 + (level - 1) / 3 }

  /** The slot upgraded by reaching a level. */
  function SlotFor(level: int): Slot
    requires level >= 2
  {
    SLOTS[(level - 2) % 5]
  }

  function StandardItem(slot: Slot, level: Level): Item {
    Item(ItemName(Mk(slot, GearTier(level)), false, false), GearTier(level), false, 0)
  }

  /** Gear after reaching `level`: the slot due gets standard gear unless it holds an artifact. */
  function Install(eq: Loadout, level: Level): Loadout
    requires level >= 2
  {
    var slot := SlotFor(level);
    if GearIn(eq, slot).unique then eq else eq[slot := StandardItem(slot, level)]
  }

  /** The part of a runner the level-up loop works on. */
  datatype Meter = Meter(level: Level, progress: int, equipment: Loadout)

  function Promote(m: Meter, r: Rules): Meter {
    Meter(m.level + 1, m.progress - LevelDuration(r, m.level), Install(m.equipment, m.level + 1))
  }

  /** The level-up loop. */
  function LevelLoop(m: Meter, r: Rules): Meter
    decreases m.progress
  {
    if m.progress >= LevelDuration(r, m.level) then LevelLoop(Promote(m, r), r) else m
  }

  /** Whole units of time between two instants; nothing when the clock reads earlier. */
  function Elapsed(last: Time, now: Time, unit: int): (n: nat)
    requires unit > 0
  {
    if now > last then (now - last) / unit else 0
  }

  /** First-sight defaults, and the moment a connected runner was last seen. */
  function Seen(p: Runner, now: Time): Runner {
    p.(lastProgressAt := if p.lastProgressAt == 0 then now else p.lastProgressAt,
       lastHeatAt := if p.lastHeatAt == 0 then now else p.lastHeatAt,
       lastSeenAt := Max(p.lastSeenAt, now))
  }

  function Accrue(p: Runner, now: Time): Runner {
    var n := Elapsed(p.lastProgressAt, now, SECOND);
    p.(progress := p.progress + n, lastProgressAt := p.lastProgressAt + n * SECOND)
  }

  function Cool(p: Runner, now: Time, r: Rules): Runner
    requires r.heatDecayInterval > 0
  {
    var n := Elapsed(p.lastHeatAt, now, r.heatDecayInterval);
    p.(heat := ClampHeat(p.heat - n), lastHeatAt := p.lastHeatAt + n * r.heatDecayInterval)
  }

  function MeterOf(p: Runner): Meter { Meter(p.level, p.progress, p.equipment) }

  function WithMeter(p: Runner, m: Meter): Runner {
    p.(level := m.level, progress := m.progress, equipment := m.equipment)
  }

  /** Accrued time and cooled Heat, before any level-up. */
  function Clocked(p: Runner, now: Time, r: Tuning): Runner
  {
    Cool(Accrue(Seen(p, now), now), now, r)
  }

  /** advancePlayer on a runner record. */
  function Advance(p: Runner, now: Time, r: Tuning): Runner
  {
    if !p.connected then p.(lastProgressAt := now, lastHeatAt := now)
    else var q := Clocked(p, now, r); WithMeter(q, LevelLoop(MeterOf(q), r))
  }

  function LevelMsgs(before: Runner, after: Runner): seq<Msg> {
    if after.level > before.level
    then [LevelUp(DisplayName(after), after.level, after.level - before.level)]
    else []
  }

  // ---- What the level loop keeps ----

  /** Seconds needed to reach a level from level 1. */
  function CumulativeSeconds(r: Rules, level: Level): int {
    if level == 1 then 0 else CumulativeSeconds(r, level - 1) + LevelDuration(r, level - 1)
  }

  /** Lifetime progress: everything spent on earlier levels plus what is on the meter. */
  function Lifetime(m: Meter, r: Rules): int {
    CumulativeSeconds(r, m.level) + m.progress
  }

  lemma {:induction false} LevelLoopKeeps(m: Meter, r: Rules)
    ensures Lifetime(LevelLoop(m, r), r) == Lifetime(m, r)
    ensures LevelLoop(m, r).level >= m.level
    ensures LevelLoop(m, r).progress < LevelDuration(r, LevelLoop(m, r).level)
    ensures LevelLoop(m, r).level > m.level ==> LevelLoop(m, r).progress >= 0
    decreases m.progress
  {
    if m.progress >= LevelDuration(r, m.level) {
      LevelLoopKeeps(Promote(m, r), r);
    }
  }

  lemma {:induction false} CumulativeMonotone(r: Rules, low: Level, high: Level)
    requires low < high
    ensures CumulativeSeconds(r, low) < CumulativeSeconds(r, high)
    decreases high
  {
    if low < high - 1 {
      CumulativeMonotone(r, low, high - 1);
    }
  }

  /** With configured tuning, twice the seconds needed is a quadratic in the level. */
  lemma {:induction false} CumulativeClosedForm(r: Tuning, level: Level)
    ensures 2 * CumulativeSeconds(r, level)
         == 2 * ((level - 1) * r.baseLevelSeconds) + r.levelStepSeconds * ((level - 1) * (level - 2))
  {
    if level > 1 {
      CumulativeClosedForm(r, level - 1);
      ClosedFormStep(level - 2, r.baseLevelSeconds, r.levelStepSeconds);
    }
  }

  lemma ClosedFormStep(m: nat, base: int, step: nat)
    ensures m * step >= 0
    ensures (m + 1) * base == m * base + base
    ensures step * ((m + 1) * m) == step * (m * (m - 1)) + 2 * (m * step)
  {
    assert (m + 1) * m == m * (m - 1) + 2 * m;
    MulDistributes(m * (m - 1), 2 * m, step);
  }

  /**
   The loop inverts the cumulative cost: the level reached is the greatest one the lifetime progress
   pays for, and never below the level started from.
   */
  lemma LevelLoopInverts(m: Meter, r: Rules, level: Level)
    requires level > m.level
    ensures level <= LevelLoop(m, r).level <==> CumulativeSeconds(r, level) <= Lifetime(m, r)
  {
    LevelLoopKeeps(m, r);
    var q := LevelLoop(m, r);
    if level < q.level {
      CumulativeMonotone(r, level, q.level);
    } else if level > q.level + 1 {
      CumulativeMonotone(r, q.level + 1, level);
    }
    assert CumulativeSeconds(r, q.level + 1) == CumulativeSeconds(r, q.level) + LevelDuration(r, q.level);
  }

  // ---- Accrual does not depend on sampling ----

  function TopUp(m: Meter, extra: nat): Meter { m.(progress := m.progress + extra) }

  /** Topping up the meter commutes with the level loop. */
  lemma {:induction false} LevelLoopAbsorbs(m: Meter, extra: nat, r: Rules)
    ensures LevelLoop(TopUp(LevelLoop(m, r), extra), r) == LevelLoop(TopUp(m, extra), r)
    decreases m.progress
  {
    if m.progress >= LevelDuration(r, m.level) {
      LevelLoopAbsorbs(Promote(m, r), extra, r);
      assert TopUp(Promote(m, r), extra) == Promote(TopUp(m, extra), r);
    }
  }

  /** Splitting an interval loses nothing: the carried remainder makes the counts add up. */
  lemma ElapsedSplits(last: Time, t1: Time, t2: Time, unit: int)
    requires unit > 0
    ensures var n1 := Elapsed(last, t1, unit);
            && n1 + Elapsed(last + n1 * unit, t2, unit) == Elapsed(last, Max(t1, t2), unit)
            && last <= last + n1 * unit <= Max(last, t1)
  {
    var n1 := Elapsed(last, t1, unit);
    if t1 > last {
      DivisionBounds(t1 - last, unit);
      if t2 > last + n1 * unit {
        ShiftedDivision(t2 - last, n1, unit);
        if t2 < t1 {
          DivisionMonotone(t2 - last, t1 - last, unit);
        }
      }
    }
  }

  lemma DivisionBounds(a: int, unit: int)
    requires unit > 0
    ensures a / unit * unit <= a < a / unit * unit + unit
  {
  }

  /** The quotient is the only multiple count that fits. */
  lemma QuotientUnique(a: int, q: int, unit: int)
    requires unit > 0 && q * unit <= a < q * unit + unit
    ensures a / unit == q
  {
    DivisionBounds(a, unit);
    var d := a / unit - q;
    assert -unit < d * unit < unit by {
      MulDistributes(a / unit, -q, unit);
    }
    assert d < 1 by { if d >= 1 { MulDistributes(d - 1, 1, unit); } }
    assert d > -1 by { if d <= -1 { MulDistributes(-d - 1, 1, unit); } }
  }

  lemma DivisionMonotone(a: int, b: int, unit: int)
    requires unit > 0 && a <= b
    ensures a / unit <= b / unit
  {
    DivisionBounds(a, unit);
    DivisionBounds(b, unit);
    var d := a / unit - b / unit;
    MulDistributes(a / unit, -(b / unit), unit);
    assert d < 1 by { if d >= 1 { MulDistributes(d - 1, 1, unit); } }
  }

  lemma ShiftedDivision(a: int, n: int, unit: int)
    requires unit > 0
    ensures (a - n * unit) / unit == a / unit - n
  {
    DivisionBounds(a, unit);
    MulDistributes(a / unit, -n, unit);
    QuotientUnique(a - n * unit, a / unit - n, unit);
  }

  lemma MulDistributes(a: int, b: int, c: int)
    ensures (a + b) * c == a * c + b * c
  {
  }

  /** Clocking in twice adds up to clocking in once, when the meter is not read in between. */
  lemma ClockedSplits(p: Runner, t1: Time, t2: Time, r: Tuning)
    requires p.lastProgressAt > 0 && p.lastHeatAt > 0
    ensures Clocked(Clocked(p, t1, r), t2, r) == Clocked(p, Max(t1, t2), r)
  {
    ElapsedSplits(p.lastProgressAt, t1, t2, SECOND);
    ElapsedSplits(p.lastHeatAt, t1, t2, r.heatDecayInterval);
    var n1, h1 := Elapsed(p.lastProgressAt, t1, SECOND), Elapsed(p.lastHeatAt, t1, r.heatDecayInterval);
    MulDistributes(n1, Elapsed(p.lastProgressAt + n1 * SECOND, t2, SECOND), SECOND);
    MulDistributes(h1, Elapsed(p.lastHeatAt + h1 * r.heatDecayInterval, t2, r.heatDecayInterval), r.heatDecayInterval);
  }

  /** Clocking in reads and writes everything but level and gear, and only adds to the meter. */
  lemma ClockedIgnoresMeter(p: Runner, m: Meter, now: Time, r: Tuning)
    ensures Clocked(p, now, r).progress >= p.progress
    ensures Clocked(WithMeter(p, m), now, r)
         == WithMeter(Clocked(p, now, r), TopUp(m, Clocked(p, now, r).progress - p.progress))
  {
  }

  /** Advancing a connected runner twice is advancing it once to the later instant. */
  lemma SamplingIndependent(p: Runner, t1: Time, t2: Time, r: Tuning)
    requires p.connected && p.lastProgressAt > 0 && p.lastHeatAt > 0
    ensures Advance(Advance(p, t1, r), t2, r) == Advance(p, Max(t1, t2), r)
  {
    hide LevelDuration, Elapsed, LevelLoop;
    var a := Clocked(p, t1, r);
    var b := Clocked(a, t2, r);
    var m := LevelLoop(MeterOf(a), r);
    ClockedSplits(p, t1, t2, r);
    ClockedIgnoresMeter(a, m, t2, r);
    LevelLoopAbsorbs(MeterOf(a), b.progress - a.progress, r);
    assert MeterOf(Clocked(WithMeter(a, m), t2, r)) == TopUp(m, b.progress - a.progress);
    assert TopUp(MeterOf(a), b.progress - a.progress) == MeterOf(b);
  }
}
