/** Standard gear against the rating expected of a level. */
module Gear {
  import opened Grid
  import opened Progression

  /** Sum of the tiers of the levels from `low` up to `high`. */
  function TierSum(high: int, low: Level): int
    decreases high - low
  {
    if high < low then 0 else GearTier(high) + TierSum(high - 1, low)
  }

  /** The rating of a standard loadout: the gear of the last five level-ups. */
  function ExpectedRating(level: Level): int {
    TierSum(level, Max(2, level - 4))
  }

  method ExpectedGearRating(level: Level) returns (total: int)
    ensures total == ExpectedRating(level)
  {
    total := 0;
    var l := level;
    while l >= 2 && l > level - |SLOTS|
      invariant Max(2, level - 4) - 1 <= l <= level || l == level == 1
      invariant total + TierSum(l, Max(2, level - 4)) == ExpectedRating(level)
    {
      total := total + GearTier(l);
      l := l - 1;
    }
  }

  predicate NoUniques(eq: Loadout) {
    forall slot :: !GearIn(eq, slot).unique
  }

  /** Gear after every level-up from `start` to `end`. */
  function Fit(eq: Loadout, start: Level, end: Level): Loadout
    requires start <= end
    decreases end
  {
    if start == end then eq else Install(Fit(eq, start, end - 1), end)
  }

  lemma {:induction false} FitComposes(eq: Loadout, start: Level, mid: Level, end: Level)
    requires start <= mid <= end
    ensures Fit(Fit(eq, start, mid), mid, end) == Fit(eq, start, end)
    decreases end
  {
    if mid < end {
      FitComposes(eq, start, mid, end - 1);
    }
  }

  /** What the level loop does to gear depends on the levels gained alone. */
  lemma {:induction false} LevelLoopFits(m: Meter, r: Rules)
    ensures LevelLoop(m, r).level >= m.level
    ensures LevelLoop(m, r).equipment == Fit(m.equipment, m.level, LevelLoop(m, r).level)
    decreases m.progress
  {
    hide Install, LevelDuration;
    if m.progress >= LevelDuration(r, m.level) {
      LevelLoopFits(Promote(m, r), r);
      assert Fit(m.equipment, m.level, m.level + 1) == Promote(m, r).equipment;
      FitComposes(m.equipment, m.level, m.level + 1, LevelLoop(m, r).level);
    }
  }

  lemma {:induction false} FitKeepsStandard(eq: Loadout, start: Level, end: Level)
    requires start <= end && NoUniques(eq)
    ensures NoUniques(Fit(eq, start, end))
    decreases end
  {
    if start < end {
      FitKeepsStandard(eq, start, end - 1);
      var before, after := Fit(eq, start, end - 1), Fit(eq, start, end);
      forall slot ensures !GearIn(after, slot).unique {
        assert !GearIn(before, slot).unique && !GearIn(before, SlotFor(end)).unique;
      }
    }
  }

  lemma SlotsCycle(level: Level, later: Level)
    requires 2 <= level <= later < level + 5
    ensures SlotFor(later) == SlotFor(level) <==> later == level
  {
    var x := (level - 2) % 5;
    assert (later - 2) % 5 == (x + (later - level)) % 5;
  }

  /** Until its next turn comes, a slot keeps the gear of the level-up that last refitted it. */
  lemma {:induction false} SlotKeepsGear(eq: Loadout, start: Level, end: Level, level: Level)
    requires NoUniques(eq) && start < level <= end < level + 5
    ensures GearIn(Fit(eq, start, end), SlotFor(level)) == StandardItem(SlotFor(level), level)
    decreases end
  {
    FitKeepsStandard(eq, start, end - 1);
    assert !GearIn(Fit(eq, start, end - 1), SlotFor(end)).unique;
    SlotsCycle(level, end);
    if level < end {
      SlotKeepsGear(eq, start, end - 1, level);
    }
  }

  /** A rating is the sum over any listing of the five slots. */
  lemma RatingInTurn(eq: Loadout, level: Level)
    requires level >= 6
    ensures EquipmentRating(eq)
         == GearIn(eq, SlotFor(level - 4)).rating + GearIn(eq, SlotFor(level - 3)).rating
          + GearIn(eq, SlotFor(level - 2)).rating + GearIn(eq, SlotFor(level - 1)).rating
          + GearIn(eq, SlotFor(level)).rating
  {
    var x := (level - 6) % 5;
    assert SlotFor(level - 4) == SLOTS[x];
    assert SlotFor(level - 3) == SLOTS[(x + 1) % 5];
    assert SlotFor(level - 2) == SLOTS[(x + 2) % 5];
    assert SlotFor(level - 1) == SLOTS[(x + 3) % 5];
    assert SlotFor(level) == SLOTS[(x + 4) % 5];
    assert x == 0 || x == 1 || x == 2 || x == 3 || x == 4;
  }

  /** Any loadout without artifacts is back to standard after five level-ups, whatever befell it. */
  lemma GearStabilises(eq: Loadout, start: Level, end: Level)
    requires NoUniques(eq) && end >= start + 5
    ensures EquipmentRating(Fit(eq, start, end)) == ExpectedRating(end)
  {
    RatingInTurn(Fit(eq, start, end), end);
    SlotKeepsGear(eq, start, end, end - 4);
    SlotKeepsGear(eq, start, end, end - 3);
    SlotKeepsGear(eq, start, end, end - 2);
    SlotKeepsGear(eq, start, end, end - 1);
    SlotKeepsGear(eq, start, end, end);
    FiveTiers(end);
  }

  lemma FiveTiers(level: Level)
    requires level >= 6
    ensures ExpectedRating(level)
         == GearTier(level - 4) + GearTier(level - 3) + GearTier(level - 2) + GearTier(level - 1) + GearTier(level)
  {
    var low := level - 4;
    assert TierSum(low, low) == GearTier(low) + TierSum(low - 1, low);
    assert TierSum(low + 2, low) == GearTier(low + 2) + TierSum(low + 1, low);
    assert TierSum(low + 4, low) == GearTier(low + 4) + TierSum(low + 3, low);
  }

  /** A fresh runner's gear is standard at every level. */
  lemma FreshGearIsStandard(level: Level)
    ensures EquipmentRating(Fit(map[], 1, level)) == ExpectedRating(level)
  {
    if level >= 6 {
      GearStabilises(map[], 1, level);
    } else {
      FirstLevels(level);
    }
  }

  /** The first five levels fill one slot each. */
  lemma {:induction false} FirstLevels(level: Level)
    requires level < 6
    ensures EquipmentRating(Fit(map[], 1, level)) == ExpectedRating(level) == TierSum(level, 2)
    ensures forall l: Level :: level < l <= 6 ==> SlotFor(l) !in Fit(map[], 1, level)
    decreases level
  {
    if level > 1 {
      FirstLevels(level - 1);
      var before := Fit(map[], 1, level - 1);
      assert Fit(map[], 1, level) == before[SlotFor(level) := StandardItem(SlotFor(level), level)];
      RatingOfOne(before, SlotFor(level), StandardItem(SlotFor(level), level));
      forall l: Level | level < l <= 6 ensures SlotFor(l) !in Fit(map[], 1, level) {
        SlotsCycle(level, l);
      }
    }
  }

  lemma RatingOfOne(eq: Loadout, slot: Slot, item: Item)
    ensures EquipmentRating(eq[slot := item]) == EquipmentRating(eq) - GearIn(eq, slot).rating + item.rating
  {
  }

  /** The same of a whole advance: five levels gained without an artifact leave standard gear. */
  lemma LevelLoopStabilises(m: Meter, r: Rules)
    requires NoUniques(m.equipment)
    requires LevelLoop(m, r).level >= m.level + 5 || (m.level == 1 && m.equipment == map[])
    ensures EquipmentRating(LevelLoop(m, r).equipment) == ExpectedRating(LevelLoop(m, r).level)
  {
    LevelLoopFits(m, r);
    if m.level == 1 && m.equipment == map[] {
      FreshGearIsStandard(LevelLoop(m, r).level);
    } else {
      GearStabilises(m.equipment, m.level, LevelLoop(m, r).level);
    }
  }
}
