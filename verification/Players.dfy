/** Runner records as the engine holds them: objects whose fields are updated in place. */
module Players {
  import opened Grid
  import opened Progression
  import opened StoreRows
  import M = Machine

  class Player {
    var identity: Key
    var account: Option<Name>
    var nick: Name
    var alias: Option<Name>
    var guest: bool
    var level: Level
    var progress: int
    var lastProgressAt: Time
    var connected: bool
    var lastSeenAt: Time
    var nextEncounterAt: Time
    var nextCollisionAt: Time
    var nextDistrictAt: Time
    var district: District
    var heat: Heat
    var lastHeatAt: Time
    var faction: Faction
    var lastFactionSwapAt: Time
    var stance: Stance
    var equipment: Loadout
    var scars: seq<Scar>
    var rivals: map<Key, nat>
    var streakSince: Time
    var streakDays: int

    /** The record's current value. */
    function View(): Runner
      reads this
    {
      Runner(identity, account, nick, alias, guest, level, progress, lastProgressAt, connected, lastSeenAt,
             nextEncounterAt, nextCollisionAt, nextDistrictAt, district, heat, lastHeatAt, faction, lastFactionSwapAt,
             stance, equipment, scars, rivals, streakSince, streakDays)
    }

    constructor (v: Runner)
      ensures View() == v
    {
      identity, account, nick, alias, guest := v.identity, v.account, v.nick, v.alias, v.guest;
      level, progress, lastProgressAt := v.level, v.progress, v.lastProgressAt;
      connected, lastSeenAt := v.connected, v.lastSeenAt;
      nextEncounterAt, nextCollisionAt, nextDistrictAt := v.nextEncounterAt, v.nextCollisionAt, v.nextDistrictAt;
      district, heat, lastHeatAt := v.district, v.heat, v.lastHeatAt;
      faction, lastFactionSwapAt, stance := v.faction, v.lastFactionSwapAt, v.stance;
      equipment, scars, rivals := v.equipment, v.scars, v.rivals;
      streakSince, streakDays := v.streakSince, v.streakDays;
    }

    /** advancePlayer: accrue connected time, cool off, level up; and what there is to announce. */
    method Advance(now: Time, r: Tuning) returns (messages: seq<Msg>)
      modifies this
      ensures View() == Progression.Advance(old(View()), now, r)
      ensures messages == LevelMsgs(old(View()), View())
    {
      hide Clocked, LevelLoop;
      messages := [];
      var startLevel := level;
      if !connected {
        lastProgressAt, lastHeatAt := now, now;
        return;
      }
      Clock(now, r);
      LevelUp(r);
      if level > startLevel {
        messages := [Msg.LevelUp(DisplayName(View()), level, level - startLevel)];
      }
    }

    /** First-sight defaults. A connected runner is being seen, so offline timers start over. */
    method Sight(now: Time)
      modifies `lastProgressAt, `lastHeatAt, `lastSeenAt
      ensures View() == Seen(old(View()), now)
    {
      if lastProgressAt == 0 { lastProgressAt := now; }
      if lastHeatAt == 0 { lastHeatAt := now; }
      if now > lastSeenAt { lastSeenAt := now; }
    }

    method Clock(now: Time, r: Tuning)
      modifies this
      ensures View() == Clocked(old(View()), now, r)
    {
      Sight(now);
      var elapsed := Elapsed(lastProgressAt, now, SECOND);
      progress := progress + elapsed;
      lastProgressAt := lastProgressAt + elapsed * SECOND;
      var elapsedHeat := Elapsed(lastHeatAt, now, r.heatDecayInterval);
      heat := ClampHeat(heat - elapsedHeat);
      lastHeatAt := lastHeatAt + elapsedHeat * r.heatDecayInterval;
    }

    /** The record becomes an account's. */
    method Adopt(accountKey: Key, to: Name)
      modifies this
      ensures View() == old(View()).(identity := accountKey, account := Some(to), guest := false)
    {
      identity, account, guest := accountKey, Some(to), false;
    }

    /** On the Grid under this nick. */
    method Link(asNick: Name)
      modifies this
      ensures View() == old(View()).(nick := asNick, connected := true)
    {
      nick, connected := asNick, true;
    }

    /** The line goes quiet. */
    method GoDark(now: Time)
      modifies this
      ensures View() == old(View()).(connected := false, lastSeenAt := now)
    {
      connected, lastSeenAt := false, now;
    }

    /** The account and nick the runner is on the Grid with. */
    method Sign(asNick: Name, to: Option<Name>)
      modifies this
      ensures View() == old(View()).(nick := asNick, account := to, guest := to.None?, connected := true)
    {
      nick, account, guest := asNick, to, to.None?;
      connected := true;
    }

    /** Accrual and cooling start over. */
    method Freeze(now: Time)
      modifies this
      ensures View() == old(View()).(lastProgressAt := now, lastHeatAt := now)
    {
      lastProgressAt, lastHeatAt := now, now;
    }

    /** Off the Grid through no doing of the runner's. */
    method Suspend(now: Time)
      modifies this
      ensures View() == old(View()).(connected := false, lastProgressAt := now, lastHeatAt := now)
    {
      connected, lastProgressAt, lastHeatAt := false, now, now;
    }

    method SeenAt(now: Time)
      modifies this
      ensures View() == old(View()).(lastSeenAt := now)
    {
      lastSeenAt := now;
    }

    method TakeAlias(to: Option<Name>, now: Time)
      modifies this
      ensures View() == old(View()).(alias := to, lastSeenAt := now)
    {
      alias, lastSeenAt := to, now;
    }

    method TakeStance(to: Stance, now: Time)
      modifies this
      ensures View() == old(View()).(stance := to, lastSeenAt := now)
    {
      stance, lastSeenAt := to, now;
    }

    /** Join a faction, inside a crash window or for the first time. */
    method TakeFaction(to: Faction, inWindow: bool, now: Time)
      modifies this
      ensures View() == old(View()).(faction := to, lastSeenAt := now,
                                     lastFactionSwapAt := if inWindow then now else old(View()).lastFactionSwapAt)
    {
      faction, lastSeenAt := to, now;
      if inWindow { lastFactionSwapAt := now; }
    }

    method Rename(asNick: Name)
      modifies this
      ensures View() == old(View()).(nick := asNick)
    {
      nick := asNick;
    }

    method Reidentify(k: Key)
      modifies this
      ensures View() == old(View()).(identity := k)
    {
      identity := k;
    }

    /** A reward, or a loss when negative. */
    method Gain(seconds: int)
      modifies this
      ensures View() == old(View()).(progress := old(View()).progress + seconds)
    {
      progress := progress + seconds;
    }

    method AddHeat(amount: int)
      modifies this
      ensures View() == old(View()).(heat := ClampHeat(old(View()).heat + amount))
    {
      heat := ClampHeat(heat + amount);
    }

    method SetStreak(since: Time, days: int)
      modifies this
      ensures View() == old(View()).(streakSince := since, streakDays := days)
    {
      streakSince, streakDays := since, days;
    }

    method Reschedule(encounter: Time, drift: Time, collision: Time)
      modifies this
      ensures View() == old(View()).(nextEncounterAt := encounter, nextDistrictAt := drift,
                                     nextCollisionAt := collision)
    {
      nextEncounterAt, nextDistrictAt, nextCollisionAt := encounter, drift, collision;
    }

    /** What the level-up loop works on. */
    function Gauge(): Meter
      reads `level, `progress, `equipment
    {
      Meter(level, progress, equipment)
    }

    method GainLevel(r: Tuning)
      modifies `level, `progress, `equipment
      ensures Gauge() == Promote(old(Gauge()), r)
    {
      progress := progress - LevelDuration(r, level);
      level := level + 1;
      var slot := SLOTS[(level - 2) % 5];
      if !GearIn(equipment, slot).unique {
        equipment := equipment[slot := StandardItem(slot, level)];
      }
    }

    method LevelUp(r: Tuning)
      modifies `level, `progress, `equipment
      ensures Gauge() == LevelLoop(old(Gauge()), r)
    {
      while progress >= LevelDuration(r, level)
        invariant LevelLoop(Gauge(), r) == LevelLoop(old(Gauge()), r)
        decreases progress
      {
        GainLevel(r);
      }
    }

    // ---- What operations do to one runner ----

    method AddScar(scar: Scar) returns (added: bool)
      modifies this
      ensures View() == old(View()).(scars := AppendUnique(old(View()).scars, [scar]))
      ensures added <==> scar !in old(View()).scars
    {
      assert [scar][..0] == [];
      added := true;
      for i := 0 to |scars|
        invariant added <==> scar !in scars[..i]
      {
        if scars[i] == scar { added := false; }
      }
      if added {
        scars := scars + [scar];
      }
    }

    method Equip(slot: Slot, item: Item)
      modifies this
      ensures View() == old(View()).(equipment := old(View()).equipment[slot := item])
    {
      equipment := equipment[slot := item];
    }

    /** On the Grid from now on, under this nick and account. */
    method Enlink(asNick: Name, to: Option<Name>, now: Time)
      modifies this
      ensures View() == M.Linked(old(View()), asNick, to, now)
      ensures View().identity == old(View()).identity
    {
      hide View;
      Sign(asNick, to);
      SeenAt(now);
      Freeze(now);
    }

    /** The bonus for another whole day on the link. */
    method PayStreak(days: int, r: Rules)
      modifies this
      ensures var v := old(View());
              View() == v.(streakDays := days, progress := v.progress + Max(120, LevelDuration(r, v.level) / 4))
    {
      hide View, LevelDuration;
      SetStreak(View().streakSince, days);
      Gain(Max(120, LevelDuration(r, View().level) / 4));
    }

    method Speak(w: World, kind: M.Kind, length: int, now: Time, r: Rules)
      modifies this
      ensures View() == M.Spoken(old(View()), w, kind, length, now, r)
      ensures View().identity == old(View()).identity
    {
      hide View, M.PenaltySeconds, M.Waived;
      SeenAt(now);
      var penalty := if M.Waived(w, kind, now) then 0 else M.PenaltySeconds(View().level, kind, length, r);
      Gain(-penalty);
    }

    method Unlink(kind: M.Kind, now: Time, r: Rules)
      modifies this
      ensures View() == M.Unlinked(old(View()), kind, now, r)
      ensures View().identity == old(View()).identity
    {
      hide View, M.PenaltySeconds, M.DisconnectHeat, ClampHeat;
      Gain(-M.PenaltySeconds(View().level, kind, 0, r));
      AddHeat(M.DisconnectHeat(kind));
      GoDark(now);
      Freeze(now);
      if kind != M.Netsplit {
        SetStreak(0, 0);
      }
    }

    method Renick(asNick: Name, r: Rules)
      modifies this
      ensures View() == M.Renamed(old(View()), asNick, r)
      ensures View().identity == old(View()).identity
    {
      hide View, M.PenaltySeconds, ClampHeat;
      Gain(-M.PenaltySeconds(View().level, M.NickChange, 0, r));
      AddHeat(4);
      Rename(asNick);
    }

    /** The runner's share of a resolved contract. */
    method Settle(success: bool, r: Rules)
      modifies this
      ensures View() == M.Settled(old(View()), success, r)
      ensures View().identity == old(View()).identity
    {
      hide View, LevelDuration, ClampHeat;
      if success {
        Gain(Max(60, LevelDuration(r, View().level) / 6));
        AddHeat(3);
      } else {
        Gain(-Max(120, LevelDuration(r, View().level) / 4));
        AddHeat(10);
      }
    }

    /** The runner's share of a raid. */
    method ShareRaid(success: bool, r: Rules)
      modifies this
      ensures View() == M.Raided(old(View()), success, r)
      ensures View().identity == old(View()).identity
    {
      hide View, LevelDuration, ClampHeat;
      if success {
        Gain(Max(60, LevelDuration(r, View().level) / 8));
        AddHeat(3);
      } else {
        Gain(-Max(60, LevelDuration(r, View().level) / 12));
        AddHeat(6);
      }
    }

    method PocketShard(r: Rules)
      modifies this
      ensures View() == M.Shard(old(View()), r)
      ensures View().identity == old(View()).identity
    {
      hide View, LevelDuration;
      Gain(Max(60, LevelDuration(r, View().level) / 10));
    }

    /** applyCityEventGear: the deck is overclocked, whatever it is. */
    method OverclockDeck()
      modifies this
      ensures View() == old(View()).(equipment := M.Overclocked(old(View()).equipment))
    {
      var item := GearIn(equipment, Deck);
      if item.name.base == Unnamed {
        item := item.(name := item.name.(base := BareDeck));
      }
      item := item.(rating := item.rating + 1);
      if !item.name.leaked {
        item := item.(name := item.name.(leaked := true));
      }
      equipment := equipment[Deck := item];
    }

    method TraceSooner(now: Time)
      modifies this
      ensures var v, soon := old(View()), now + 15 * MINUTE;
              View() == v.(nextEncounterAt :=
                if v.nextEncounterAt == 0 || v.nextEncounterAt > soon then soon else v.nextEncounterAt)
    {
      if nextEncounterAt == 0 || nextEncounterAt > now + 15 * MINUTE {
        nextEncounterAt := now + 15 * MINUTE;
      }
    }

    /** A city event reaches the runner. */
    method TakeEvent(event: CityEvent, scarred: bool, now: Time)
      modifies this
      ensures View() == M.EventHit(old(View()), event, scarred, now)
      ensures View().identity == old(View()).identity
    {
      hide View, M.ProgressChange, M.Overclocked, ClampHeat, AppendUnique;
      Gain(M.ProgressChange(event, View()));
      if event == CorporateSweep {
        AddHeat(10);
        if scarred {
          var _ := AddScar(CorporateBackdoor);
        }
      }
      if event == DataLeak {
        OverclockDeck();
        TraceSooner(now);
      }
    }

    method BeatIce(scarred: bool, r: Rules)
      modifies this
      ensures View() == M.IceWon(old(View()), scarred, r)
      ensures View().identity == old(View()).identity
    {
      hide View, LevelDuration, M.StanceReward, M.StanceHeat, ClampHeat, AppendUnique;
      var gain := Max(10, LevelDuration(r, View().level) / 20);
      if View().faction == Chrome {
        gain := gain * 3 / 2;
      }
      Gain(M.StanceReward(View().stance, gain));
      AddHeat(M.StanceHeat(View().stance, 2));
      if scarred {
        var _ := AddScar(GhostSignal);
      }
    }

    method LoseToIce(scarred: bool, r: Rules)
      modifies this
      ensures View() == M.IceLost(old(View()), scarred, r)
      ensures View().identity == old(View()).identity
    {
      hide View, LevelDuration, M.StanceHeat, ClampHeat, AppendUnique;
      var loss := Max(5, LevelDuration(r, View().level) / 30);
      if View().faction == Nomad {
        loss := Max(3, loss / 2);
      }
      if View().district == GhostQuarter {
        loss := loss * 3 / 2;
      }
      Gain(-loss);
      AddHeat(M.StanceHeat(View().stance, 8));
      if scarred {
        var _ := AddScar(BurnedOptic);
      }
    }

    method WinBout(kind: nat, scarred: bool, r: Rules)
      modifies this
      ensures View() == M.Won(old(View()), kind, scarred, r)
      ensures View().identity == old(View()).identity
    {
      hide View, LevelDuration, ClampHeat, AppendUnique;
      var gain := Max(30, LevelDuration(r, View().level) / 20);
      AddHeat(3);
      if scarred {
        var _ := AddScar(SyntheticAdrenalGland);
      }
      if kind == 1 {
        Gain(gain * 2);
      } else if kind == 2 {
        Gain(Max(15, gain / 2));
      } else {
        Gain(gain);
      }
    }

    /** The drone takes the hit, unless it is an artifact or worn out already. */
    method DamageDrone()
      modifies this
      ensures View() == old(View()).(equipment := M.DamagedDrone(old(View()).equipment))
    {
      if Drone in equipment && !equipment[Drone].unique && equipment[Drone].rating > 0 {
        var item := equipment[Drone];
        item := item.(rating := item.rating - 1);
        if !item.name.damaged {
          item := item.(name := item.name.(damaged := true));
        }
        equipment := equipment[Drone := item];
      }
    }

    method LoseBout(kind: nat, r: Rules)
      modifies this
      ensures View() == M.Lost(old(View()), kind, r)
      ensures View().identity == old(View()).identity
    {
      hide View, LevelDuration, ClampHeat, M.CollisionLoss, M.DamagedDrone;
      var loss := M.CollisionLoss(View(), Max(20, LevelDuration(r, View().level) / 24));
      AddHeat(5);
      if kind == 1 {
        Gain(-Max(15, loss / 2));
      } else if kind == 2 {
        Gain(-(loss * 2));
      } else {
        Gain(-loss);
      }
      if kind == 3 {
        DamageDrone();
      }
    }

    method CountBout(rival: Key)
      modifies this
      ensures View() == M.CountBout(old(View()), rival)
      ensures View().identity == old(View()).identity
    {
      rivals := rivals[rival := Bouts(rivals, rival) + 1];
    }

    method CoolDown(collision: Time)
      modifies this
      ensures View() == old(View()).(nextCollisionAt := collision)
    {
      nextCollisionAt := collision;
    }

    method Rearm(encounter: Time)
      modifies this
      ensures View() == old(View()).(nextEncounterAt := encounter)
    {
      nextEncounterAt := encounter;
    }

    method DriftTo(to: District, next: Time)
      modifies this
      ensures View() == old(View()).(district := to, nextDistrictAt := next)
    {
      district, nextDistrictAt := to, next;
    }
  }
}
