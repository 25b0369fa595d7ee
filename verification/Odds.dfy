/** The odds of encounters and drops: what improves them, by how much, and what a draw then decides. */
module Odds {
  import opened Grid
  import opened Progression
  import opened StoreRows
  import opened Machine
  import Gear

  // ---- ICE ----

  /** Odds strictly between the bounds are not clamped. */
  predicate Inside(chance: int) { 10 < chance < 95 }

  /** How far the gear is above a standard loadout of the level. */
  function Edge(p: Runner): int { EquipmentRating(p.equipment) - Gear.ExpectedRating(p.level) }

  /** On-level gear, and nothing else to speak of, wins 65 encounters in a hundred; odds stay between 10 and 95. */
  lemma OnLevelOdds(p: Runner, champion: Faction)
    ensures 10 <= IceWinChance(p, champion) <= 95
    ensures Edge(p) == 0 && p.stance == Normal && p.faction == Unaffiliated && p.scars == [] && p.heat < 5
            && (p.district == NeonMarket || p.district == Floodline) ==>
              IceWinChance(p, champion) == 65
  {
    hide EquipmentRating, Gear.ExpectedRating;
  }

  /** Better gear never worsens the odds, and each rating point is worth three percent between the bounds. */
  lemma GearHelps(p: Runner, q: Runner, champion: Faction)
    requires q == p.(level := q.level, equipment := q.equipment) && Edge(q) >= Edge(p)
    ensures IceWinChance(q, champion) >= IceWinChance(p, champion)
    ensures Inside(IceWinChance(p, champion)) && Inside(IceWinChance(q, champion)) ==>
              IceWinChance(q, champion) - IceWinChance(p, champion) == 3 * (Edge(q) - Edge(p))
  {
    hide EquipmentRating, Gear.ExpectedRating;
  }

  /** Heat never improves the odds; a hundred points cost twenty percent. */
  lemma HeatHurts(p: Runner, heat: Heat, champion: Faction)
    requires heat >= p.heat
    ensures IceWinChance(p.(heat := heat), champion) <= IceWinChance(p, champion)
    ensures IceWinChance(p.(heat := heat), champion) >= IceWinChance(p, champion) - 20
    ensures p.heat == 0 && heat == MAX_HEAT && Inside(IceWinChance(p.(heat := heat), champion))
            && Inside(IceWinChance(p, champion)) ==>
              IceWinChance(p.(heat := heat), champion) == IceWinChance(p, champion) - 20
  {
    hide EquipmentRating, Gear.ExpectedRating;
  }

  /** Cold is ten percent safer than normal, and hot ten percent riskier. */
  lemma StanceMoves(p: Runner, champion: Faction)
    ensures var cold, normal, hot := IceWinChance(p.(stance := Cold), champion),
                                     IceWinChance(p.(stance := Normal), champion),
                                     IceWinChance(p.(stance := Hot), champion);
            && cold >= normal >= hot
            && (Inside(cold) && Inside(normal) ==> cold == normal + 10)
            && (Inside(normal) && Inside(hot) ==> normal == hot + 10)
  {
    hide EquipmentRating, Gear.ExpectedRating;
  }

  /** The Corporate Arcology is the best place to meet ICE, Old Transit next, and the Ghost Quarter the worst. */
  lemma DistrictsMove(p: Runner, champion: Faction)
    ensures var at := (d: District) => IceWinChance(p.(district := d), champion);
            && at(CorporateArcology) >= at(OldTransit) >= at(NeonMarket) == at(Floodline) >= at(GhostQuarter)
            && (Inside(at(CorporateArcology)) && Inside(at(OldTransit)) ==>
                  at(CorporateArcology) == at(OldTransit) + 5)
            && (Inside(at(OldTransit)) && Inside(at(NeonMarket)) ==> at(OldTransit) == at(NeonMarket) + 5)
            && (Inside(at(NeonMarket)) && Inside(at(GhostQuarter)) ==> at(NeonMarket) == at(GhostQuarter) + 10)
  {
    hide EquipmentRating, Gear.ExpectedRating;
  }

  /** Ghostline beats ICE more often, and the champions of the last faction week five percent more often. */
  lemma FactionsMove(p: Runner, champion: Faction)
    ensures var of := (f: Faction, c: Faction) => IceWinChance(p.(faction := f), c);
            && of(Ghostline, champion) >= of(Unaffiliated, champion)
            && (Inside(of(Ghostline, Unaffiliated)) && Inside(of(Unaffiliated, champion)) ==>
                  of(Ghostline, Unaffiliated) == of(Unaffiliated, champion) + 10)
    ensures IceWinChance(p, p.faction) >= IceWinChance(p, champion) >= IceWinChance(p, Unaffiliated)
    ensures p.faction != Unaffiliated && Inside(IceWinChance(p, p.faction)) && Inside(IceWinChance(p, Unaffiliated)) ==>
              IceWinChance(p, p.faction) == IceWinChance(p, Unaffiliated) + 5
    ensures champion != p.faction ==> IceWinChance(p, champion) == IceWinChance(p, Unaffiliated)
  {
    hide EquipmentRating, Gear.ExpectedRating;
  }

  /** A ghost signal helps and a burned optic hurts, five percent each. */
  lemma ScarsMove(p: Runner, champion: Faction)
    ensures GhostSignal !in p.scars ==>
              var q := p.(scars := p.scars + [GhostSignal]);
              && IceWinChance(q, champion) >= IceWinChance(p, champion)
              && (Inside(IceWinChance(q, champion)) && Inside(IceWinChance(p, champion)) ==>
                    IceWinChance(q, champion) == IceWinChance(p, champion) + 5)
    ensures BurnedOptic !in p.scars ==>
              var q := p.(scars := p.scars + [BurnedOptic]);
              && IceWinChance(q, champion) <= IceWinChance(p, champion)
              && (Inside(IceWinChance(q, champion)) && Inside(IceWinChance(p, champion)) ==>
                    IceWinChance(q, champion) == IceWinChance(p, champion) - 5)
  {
    hide EquipmentRating, Gear.ExpectedRating;
  }

  // ---- What an encounter decides ----

  /** The runner at `k` beats the ICE: its meter rises, and it is announced so. */
  ghost predicate Beaten(t: TS, k: Key, champion: Faction)
    requires k in t.s.users
  {
    var u := Encounter(t, k, champion);
    && k in u.s.users && u.s.users[k].progress > t.s.users[k].progress
    && |u.out| == |t.out| + 1
    && (u.out[|t.out|].IceWin? || u.out[|t.out|].IceUnique?) && u.out[|t.out|].who == DisplayName(t.s.users[k])
  }

  /** The runner at `k` is beaten by the ICE: its meter falls, and it is announced so. */
  ghost predicate Flatlined(t: TS, k: Key, champion: Faction)
    requires k in t.s.users
  {
    var u := Encounter(t, k, champion);
    && k in u.s.users && u.s.users[k].progress < t.s.users[k].progress
    && u.out == t.out + [IceLoss(DisplayName(t.s.users[k]))]
  }

  /** A win pays at least six seconds, a loss costs at least three. */
  lemma StakesCount(p: Runner, scarred: bool, r: Rules)
    ensures IceWon(p, scarred, r).progress >= p.progress + 6 && IceLost(p, scarred, r).progress <= p.progress - 3
  {
    hide LevelDuration, AppendUnique, ClampHeat, StanceHeat;
  }

  /** A drop moves no meter. */
  lemma LootMovesNoMeter(s: State, k: Key, exclude: Option<ItemName>)
    requires k in s.users
    ensures k in RareLoot(s, k, exclude).users && RareLoot(s, k, exclude).users[k].progress == s.users[k].progress
  {
    hide FreshArtifact, Unclaimed, RareLootChance;
  }

  /** Of the hundred draws exactly as many win as the odds say. */
  lemma DrawDecides(t: TS, k: Key, champion: Faction)
    requires k in t.s.users
    ensures if Draw(t.s.rng, 100) < IceWinChance(t.s.users[k], champion)
            then Beaten(t, k, champion) else Flatlined(t, k, champion)
  {
    hide RareLoot, LootSlot, IceWinChance, IceWon, IceLost, DisplayName;
    var s, p, rng := t.s, t.s.users[k], Rest(t.s.rng);
    StakesCount(p, Draw(rng, 25) == 0, s.rules);
    StakesCount(p, Draw(rng, 12) == 0, s.rules);
    LootMovesNoMeter(SetAt(s, k, IceWon(p, Draw(rng, 25) == 0, s.rules)).(rng := Rest(rng)), k, None);
  }

  /** One win in twenty-five leaves a ghost signal, and one loss in twelve a burned optic. */
  lemma EncountersScar(t: TS, k: Key, champion: Faction)
    requires k in t.s.users
    ensures var p, u := t.s.users[k], Encounter(t, k, champion).s;
            && k in u.users
            && if Draw(t.s.rng, 100) < IceWinChance(p, champion) then
                 if Draw(Rest(t.s.rng), 25) == 0 then GhostSignal in u.users[k].scars else u.users[k].scars == p.scars
               else
                 if Draw(Rest(t.s.rng), 12) == 0 then BurnedOptic in u.users[k].scars else u.users[k].scars == p.scars
  {
    hide RareLoot, LootSlot, IceWinChance, LevelDuration, ClampHeat, StanceHeat, StanceReward, DisplayName,
      AppendUnique;
    var s, p, rng := t.s, t.s.users[k], Rest(t.s.rng);
    AppendUniqueIs(p.scars, [GhostSignal]);
    AppendUniqueIs(p.scars, [BurnedOptic]);
    LootLeavesScars(SetAt(s, k, IceWon(p, Draw(rng, 25) == 0, s.rules)).(rng := Rest(rng)), k, None);
  }

  lemma LootLeavesScars(s: State, k: Key, exclude: Option<ItemName>)
    requires k in s.users
    ensures k in RareLoot(s, k, exclude).users && RareLoot(s, k, exclude).users[k].scars == s.users[k].scars
  {
    hide FreshArtifact, Unclaimed, RareLootChance;
  }

  /** The hotter the stance the higher the stakes: hot pays and heats half as much again, cold pays six tenths. */
  lemma StancesPay(gain: nat, heat: nat)
    ensures StanceReward(Normal, gain) == gain && StanceHeat(Normal, heat) == heat
    ensures 2 * StanceReward(Hot, gain) <= 3 * gain < 2 * StanceReward(Hot, gain) + 2
    ensures 5 * StanceReward(Cold, gain) <= 3 * gain < 5 * StanceReward(Cold, gain) + 5
    ensures 2 * StanceHeat(Hot, heat) <= 3 * heat < 2 * StanceHeat(Hot, heat) + 2
    ensures 2 * StanceHeat(Cold, heat) <= heat < 2 * StanceHeat(Cold, heat) + 2
  {
  }

  /** Chrome wins more than anybody else. */
  lemma ChromeWinsMore(p: Runner, scarred: bool, r: Rules)
    ensures IceWon(p.(faction := Chrome), scarred, r).progress > IceWon(p.(faction := Nomad), scarred, r).progress
            == IceWon(p.(faction := Unaffiliated), scarred, r).progress
            == IceWon(p.(faction := Ghostline), scarred, r).progress
  {
    hide LevelDuration, AppendUnique, ClampHeat, StanceHeat;
  }

  /** Nomad loses less than anybody else, and the Ghost Quarter makes a loss worse. */
  lemma NomadLosesLess(p: Runner, scarred: bool, r: Rules)
    ensures IceLost(p.(faction := Nomad), scarred, r).progress > IceLost(p.(faction := Chrome), scarred, r).progress
            == IceLost(p.(faction := Unaffiliated), scarred, r).progress
            == IceLost(p.(faction := Ghostline), scarred, r).progress
    ensures p.district != GhostQuarter ==>
              IceLost(p.(district := GhostQuarter), scarred, r).progress < IceLost(p, scarred, r).progress
  {
    hide LevelDuration, AppendUnique, ClampHeat, StanceHeat;
  }

  // ---- Drops ----

  /** Heat only improves the odds of a drop; hot doubles them, up to certainty, and cold halves them. */
  lemma LootOdds(p: Runner, heat: Heat)
    requires heat >= p.heat
    ensures RareLootChance(p.(heat := heat)) >= RareLootChance(p)
    ensures var cold, normal, hot := RareLootChance(p.(stance := Cold)), RareLootChance(p.(stance := Normal)),
                                     RareLootChance(p.(stance := Hot));
            && 2 <= cold <= normal <= hot <= 30 && 5 <= normal <= 15
            && hot == 2 * normal && 2 * cold <= normal <= 2 * cold + 1
    ensures RareLootChance(p.(stance := Normal, heat := 0)) == 5
    ensures RareLootChance(p.(stance := Normal, heat := MAX_HEAT)) == 15
  {
  }

  /** The artifact of the slot may drop. */
  predicate Available(s: State, exclude: Option<ItemName>, slot: Slot) {
    ArtifactName(slot) !in s.repo.claimed && exclude != Some(ArtifactName(slot))
  }

  /** The walk from `start` passes over no artifact that may drop. */
  lemma {:induction false} NonePassedOver(s: State, exclude: Option<ItemName>, start: nat, i: nat, j: nat)
    requires start < 5 && i <= j < 5 && Available(s, exclude, RareSlot((start + j) % 5))
    ensures Unclaimed(s.repo.claimed, exclude, start, i).Some?
    decreases 5 - i
  {
    if i < j {
      if !Available(s, exclude, RareSlot((start + i) % 5)) { NonePassedOver(s, exclude, start, i + 1, j); }
    }
  }

  lemma SlotOffset(slot: Slot, start: nat) returns (j: nat)
    requires start < 5
    ensures j < 5 && RareSlot((start + j) % 5) == slot
  {
    var n: nat := match slot case Deck => 0 case NeuralImplant => 1 case WeaponRig => 2 case ArmorPlating => 3
      case Drone => 4;
    j := if n >= start then n - start else n + 5 - start;
  }

  /** A runner gets an artifact exactly if the draw is below the odds and some artifact may drop. */
  lemma DropsExactly(s: State, k: Key, exclude: Option<ItemName>)
    requires k in s.users
    ensures LootSlot(s, k, exclude).Some? <==>
              Draw(s.rng, 100) < RareLootChance(s.users[k]) && exists slot :: Available(s, exclude, slot)
  {
    hide RareLootChance, Unclaimed;
    if Draw(s.rng, 100) < RareLootChance(s.users[k]) {
      var start := Draw(Rest(s.rng), 5);
      if slot :| Available(s, exclude, slot) {
        var j := SlotOffset(slot, start);
        NonePassedOver(s, exclude, start, 0, j);
      }
      if LootSlot(s, k, exclude).Some? { assert Available(s, exclude, LootSlot(s, k, exclude).value); }
    }
  }

  /** The artifact a runner holds is new: two to four tiers above on-level gear, with four to eight levels to live. */
  ghost predicate Dropped(s: State, t: State, k: Key, slot: Slot)
    requires k in s.users
  {
    && ArtifactName(slot) !in s.repo.claimed && t.repo.claimed == s.repo.claimed[ArtifactName(slot) := k]
    && k in t.users && slot in t.users[k].equipment && t.users == s.users[k := t.users[k]]
    && t.users[k] == s.users[k].(equipment := s.users[k].equipment[slot := t.users[k].equipment[slot]])
    && var item := t.users[k].equipment[slot];
       && item.unique && item.name == ArtifactName(slot)
       && 2 <= item.rating - GearTier(s.users[k].level) <= 4
       && 4 <= item.breaksAt - s.users[k].level <= 8
  }

  /** The rig is the best artifact of its level, deck and armor come next, and the implant and the drone last. */
  lemma ArtifactsRate(level: Level, life: nat)
    ensures var rating := (slot: Slot) => FreshArtifact(slot, level, life).rating;
            && rating(WeaponRig) == rating(Deck) + 1 && rating(Deck) == rating(ArmorPlating)
            && rating(Deck) == rating(NeuralImplant) + 1 && rating(NeuralImplant) == rating(Drone)
            && rating(Drone) == GearTier(level) + 2
  {
    hide GearTier;
  }

  /** What drops is claimed for the runner and fitted; without a drop nobody and nothing changes hands. */
  lemma LootIs(s: State, k: Key, exclude: Option<ItemName>)
    requires k in s.users
    ensures var hit, t := LootSlot(s, k, exclude), RareLoot(s, k, exclude);
            if hit.Some? then Dropped(s, t, k, hit.value)
            else t.users == s.users && t.repo == s.repo
  {
    hide RareLootChance, Unclaimed, GearTier;
  }

  /** The slot in which the runner at `k` came by its artifact. */
  ghost predicate Gained(s: State, t: State, k: Key, slot: Slot)
    requires k in s.users
  {
    && ArtifactName(slot) !in s.repo.claimed && ArtifactName(slot) in t.repo.claimed
    && k in t.users && Holds(t.users[k], slot) && t.users[k].equipment[slot].name == ArtifactName(slot)
  }

  /** A win announces an artifact exactly if one dropped, by its name, and the runner then has it. */
  lemma DropsAnnounced(t: TS, k: Key, champion: Faction)
    requires k in t.s.users && Draw(t.s.rng, 100) < IceWinChance(t.s.users[k], champion)
    ensures var u := Encounter(t, k, champion);
            && |u.out| == |t.out| + 1
            && var said := u.out[|t.out|];
               if said.IceUnique? then exists slot :: said.item == ArtifactName(slot) && Gained(t.s, u.s, k, slot)
               else u.s.repo == t.s.repo
  {
    hide RareLoot, LootSlot, IceWinChance, IceWon, IceLost, DisplayName;
    var s, p, rng := t.s, t.s.users[k], Rest(t.s.rng);
    var s1 := SetAt(s, k, IceWon(p, Draw(rng, 25) == 0, s.rules)).(rng := Rest(rng));
    LootIs(s1, k, None);
    var hit := LootSlot(s1, k, None);
    if hit.Some? { assert Gained(t.s, Encounter(t, k, champion).s, k, hit.value); }
  }

  /** Gear grows a tier every three levels. */
  lemma TiersGrow(level: Level, later: Level)
    requires later >= level
    ensures GearTier(later) >= GearTier(level) >= 1 && GearTier(level + 3) == GearTier(level) + 1
    ensures GearTier(1) == 1
  {
  }
}
