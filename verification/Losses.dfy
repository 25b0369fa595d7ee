/**
 Exactly which operations take an artifact out of circulation: pruning a guest who holds it, a data leak
 that garbles the name of an artifact deck, and a migration that keeps the other record's item.
 */
module Losses {
  import opened Grid
  import opened Progression
  import opened StoreRows
  import opened Machine
  import opened Invariants
  import opened Operations
  import opened Economy
  import opened Ticks
  import opened Runs
  import opened Conservation
  import Restarts

  // ---- The world's part of the tick ----

  lemma {:induction false} SettleAllGear(s: State, team: seq<Key>, success: bool, now: Time)
    ensures SameGear(s, SettleAll(s, team, success, now))
  {
    if team != [] {
      SettleAllGear(s, team[..|team| - 1], success, now);
      var s1, k := SettleAll(s, team[..|team| - 1], success, now), team[|team| - 1];
      if k in s1.users {
        ChangeSameGear(s1, SettleAt(s1, k, success, now), k, now);
        SameGearThrough(s, s1, SettleAt(s1, k, success, now));
      }
    }
  }

  lemma {:induction false} AdvanceTeamGear(s: State, order: seq<Key>, now: Time)
    ensures SameGear(s, AdvanceTeam(s, order, now))
  {
    if order != [] {
      AdvanceTeamGear(s, order[..|order| - 1], now);
      var s1, k := AdvanceTeam(s, order[..|order| - 1], now), order[|order| - 1];
      if k in s1.users && s1.users[k].connected {
        ChangeSameGear(s1, AdvanceAt(s1, k, now), k, now);
        SameGearThrough(s, s1, AdvanceAt(s1, k, now));
      }
    }
  }

  lemma {:induction false} PayTeamGear(s: State, team: seq<Key>, won: bool)
    requires forall k :: k in team ==> k in s.users
    ensures SameGear(s, PayTeam(s, team, won))
  {
    if team != [] {
      PayTeamGear(s, team[..|team| - 1], won);
      var s1, k := PayTeam(s, team[..|team| - 1], won), team[|team| - 1];
      assert PayTeam(s, team, won).users == s1.users[k := Raided(s1.users[k], won, s.rules)];
    }
  }

  lemma RaidGear(t: TS, now: Time, order: seq<Key>)
    ensures SameGear(t.s, ResolveRaid(t, now, order).s)
  {
    if t.s.world.raid.Some? && now >= t.s.world.raid.value {
      var u := t.(s := t.s.(world := t.s.world.(raid := None)));
      RaidStepGear(u, now, order);
    }
  }

  lemma RaidStepGear(t: TS, now: Time, order: seq<Key>)
    ensures SameGear(t.s, RaidStep(t, now, order).s)
  {
    var s, team := AdvanceTeam(t.s, order, now), ConnectedIn(AdvanceTeam(t.s, order, now).users, order);
    AdvanceTeamGear(t.s, order, now);
    if team != [] {
      PayTeamGear(Skip(s), team, TeamWins(s, team));
      SameGearThrough(t.s, s, PayTeam(Skip(s), team, TeamWins(s, team)));
    }
  }

  /** Whom a city event hits in the deck. */
  function LeakHits(event: CityEvent, order: seq<Key>): seq<Key> {
    if event == DataLeak then order else []
  }

  lemma EventAtGear(s: State, k: Key, event: CityEvent, now: Time)
    ensures GearBut(s, EventAt(s, k, event, now), LeakHits(event, [k]))
  {
    hide Advance, LevelMsgs, Queue, ProgressChange;
    if k in s.users && s.users[k].connected {
      AdvanceNamed(s.users[k], now, s.rules);
      var a, t := Advance(s.users[k], now, s.rules), EventAt(s, k, event, now);
      AdvanceFrame(s.users[k], now, s.rules);
      assert event != DataLeak ==> t.users[k].equipment == a.equipment;
      assert event == DataLeak ==> t.users[k].equipment == Overclocked(a.equipment);
    }
  }

  lemma {:induction false} EventAllGear(s: State, order: seq<Key>, event: CityEvent, now: Time)
    requires Kept(s, {})
    ensures GearBut(s, EventAll(s, order, event, now), LeakHits(event, order))
  {
    if order != [] {
      var rest, k := order[..|order| - 1], order[|order| - 1];
      var s1 := EventAll(s, rest, event, now);
      EventAllGear(s, rest, event, now);
      EventAllKeeps(s, rest, event, now);
      EventAtGear(s1, k, event, now);
      GearButThrough(s, s1, EventAt(s1, k, event, now), LeakHits(event, rest), LeakHits(event, [k]),
                     LeakHits(event, order));
    }
  }

  lemma GearButThrough(s: State, t: State, u: State, first: seq<Key>, second: seq<Key>, both: seq<Key>)
    requires GearBut(s, t, first) && GearBut(t, u, second) && Profiled(s, t)
    requires forall k :: k in both <==> k in first || k in second
    ensures GearBut(s, u, both)
  {
    forall k, slot | k in s.users
      ensures Named(u.users[k], slot) <==>
                Named(s.users[k], slot) && !(slot == Deck && k in both && s.users[k].connected)
    {
      assert SameProfile(s.users[k], t.users[k]);
    }
  }

  /** The state in which the city event of a tick is drawn. */
  function BeforeEvent(s: State, now: Time, ord: Orders): TS {
    DropExpiry(ResolveRaid(ResolveContract(SwapTick(TS(s.(pending := []), []), now), now), now, ord.raid), now)
  }

  /** This tick draws a data leak. */
  predicate Leaks(s: State, now: Time, ord: Orders) {
    var t := BeforeEvent(s, now, ord);
    Due(t.s.world.nextCityEventAt, now) && Pick(t.s, ord.event).0 == Event(DataLeak)
  }

  lemma CityEventGear(t: TS, now: Time, order: seq<Key>)
    requires Kept(t.s, {})
    ensures var leak := Due(t.s.world.nextCityEventAt, now) && Pick(t.s, order).0 == Event(DataLeak);
            GearBut(t.s, CityEventTick(t, now, order).s, if leak then order else [])
  {
    hide EventAll, DropCode;
    var (news, rng) := Pick(t.s, order);
    if news.Event? {
      EventAllGear(t.s.(rng := rng), order, news.kind, now);
    }
  }

  lemma BeforeEventGear(s: State, now: Time, ord: Orders)
    requires Inv(s)
    ensures var t := BeforeEvent(s, now, ord);
            Kept(t.s, {}) && Profiled(s, t.s) && SameGear(s, t.s)
  {
    hide ResolveRaid, SettleAll, NextSwap;
    var t0 := TS(s.(pending := []), []);
    var t1 := SwapTick(t0, now);
    var t2 := ResolveContract(t1, now);
    SwapTickKeeps(t0, now);
    ResolveContractKeeps(t1, now);
    ResolveRaidKeeps(t2, now, ord.raid);
    ProfiledTransitive(s, t2.s, ResolveRaid(t2, now, ord.raid).s);
    if ContractDue(t1.s.world, now) {
      SettleAllGear(t1.s, t1.s.world.contract.value.participants, ContractHeld(t1.s), now);
    }
    RaidGear(t2, now, ord.raid);
    SameGearThrough(s, t2.s, BeforeEvent(s, now, ord).s);
  }

  lemma WorldGear(s: State, now: Time, ord: Orders)
    requires Inv(s)
    ensures var u := WorldSteps(TS(s.(pending := []), []), now, ord);
            GearBut(s, u.s, if Leaks(s, now, ord) then ord.event else [])
  {
    var t := BeforeEvent(s, now, ord);
    BeforeEventGear(s, now, ord);
    CityEventGear(t, now, ord.event);
    var hit := if Leaks(s, now, ord) then ord.event else [];
    GearButThrough(s, t.s, CityEventTick(t, now, ord.event).s, [], hit, hit);
  }

  // ---- The tick ----

  /** The slot's artifact falls out of circulation in this tick. */
  ghost predicate TickLoses(s: State, now: Time, ord: Orders, slot: Slot) {
    || (exists k :: k in s.users && PrunedWith(s.users[k], now, s.rules, slot))
    || (slot == Deck && Leaks(s, now, ord)
        && exists k :: k in s.users && s.users[k].connected && Named(s.users[k], Deck))
  }

  /** A leak loses the deck some linked runner holds, and only that. */
  lemma LeakLoses(s: State, t: State, hit: seq<Key>, slot: Slot)
    requires Core(s.users, s.repo.claimed) && GearBut(s, t, hit)
    requires hit == [] || forall k :: k in s.users ==> k in hit
    ensures LostForGood(t, slot) <==>
              LostForGood(s, slot)
              || (slot == Deck && hit != []
                  && exists k :: k in s.users && s.users[k].connected && Named(s.users[k], Deck))
  {
    if Held(s.users, slot) {
      var k :| k in s.users && Named(s.users[k], slot);
      assert SoundRunner(k, s.users[k], s.repo.claimed) && SoundArtifact(s.users[k], slot, s.repo.claimed);
      if slot == Deck && hit != [] && s.users[k].connected {
        assert !Held(t.users, slot);
      } else {
        assert Named(t.users[k], slot);
        assert forall j :: j in s.users && Named(s.users[j], slot) ==> j == k;
      }
    }
  }

  lemma StillPruned(s: State, t: State, hit: seq<Key>, now: Time, slot: Slot)
    requires Profiled(s, t) && GearBut(s, t, hit)
    ensures forall k :: k in s.users ==>
              (PrunedWith(t.users[k], now, t.rules, slot) <==> PrunedWith(s.users[k], now, s.rules, slot))
  {
    forall k | k in s.users
      ensures PrunedWith(t.users[k], now, t.rules, slot) <==> PrunedWith(s.users[k], now, s.rules, slot)
    {
      assert SameProfile(s.users[k], t.users[k]);
    }
  }

  /** What the world's part of the tick loses, and which guests are still there to be pruned. */
  lemma WorldLoses(s: State, t: State, now: Time, ord: Orders, slot: Slot)
    requires Inv(s) && Enumerates(ord.event, s.users.Keys)
    requires t == WorldSteps(TS(s.(pending := []), []), now, ord).s
    ensures LostForGood(t, slot) || (exists k :: k in t.users && PrunedWith(t.users[k], now, t.rules, slot))
       <==> LostForGood(s, slot) || TickLoses(s, now, ord, slot)
    ensures t.users.Keys == s.users.Keys && Kept(t, {})
  {
    hide WorldSteps;
    var hit := if Leaks(s, now, ord) then ord.event else [];
    WorldStepsKeep(TS(s.(pending := []), []), now, ord);
    WorldGear(s, now, ord);
    LeakLoses(s, t, hit, slot);
    StillPruned(s, t, hit, now, slot);
  }

  lemma TickWalkLoses(s: State, now: Time, ord: Orders, champion: Faction, slot: Slot, t1: TS)
    requires t1 == WorldSteps(TS(s.(pending := []), []), now, ord)
    requires Kept(t1.s, {}) && Enumerates(ord.runners, t1.s.users.Keys)
    ensures LostForGood(Tick(s, now, ord, champion), slot) <==>
              LostForGood(t1.s, slot) || exists k :: k in t1.s.users && PrunedWith(t1.s.users[k], now, t1.s.rules, slot)
  {
    hide WorldSteps, RunnerSteps, CollisionStep;
    WalkLoses(t1.(out := t1.out + s.pending), now, ord, champion, slot);
  }

  /** An artifact is out of circulation after a tick exactly if it was before or the tick loses it. */
  lemma TickConserves(s: State, now: Time, ord: Orders, champion: Faction, slot: Slot)
    requires Inv(s) && Enumerates(ord.runners, s.users.Keys) && Enumerates(ord.event, s.users.Keys)
    ensures LostForGood(Tick(s, now, ord, champion), slot) <==> LostForGood(s, slot) || TickLoses(s, now, ord, slot)
  {
    var t1 := WorldSteps(TS(s.(pending := []), []), now, ord);
    WorldLoses(s, t1.s, now, ord, slot);
    TickWalkLoses(s, now, ord, champion, slot, t1);
  }

  lemma WalkLoses(t: TS, now: Time, ord: Orders, champion: Faction, slot: Slot)
    requires Kept(t.s, {}) && Enumerates(ord.runners, t.s.users.Keys)
    ensures var u := CollisionStep(RunnerSteps(t, ord.runners, now, champion), now, ord.due, ord.pool).s;
            LostForGood(u, slot) <==>
              LostForGood(t.s, slot) || exists k :: k in t.s.users && PrunedWith(t.s.users[k], now, t.s.rules, slot)
  {
    RunnerStepsLose(t, ord.runners, now, champion, slot);
    RunnerStepsKeep(t, ord.runners, now, champion);
    CollisionConserves(RunnerSteps(t, ord.runners, now, champion), now, ord.due, ord.pool);
  }

  // ---- The other operations ----

  lemma EnterConserves(s: State, k: Key, nick: Name, account: Option<Name>, now: Time)
    ensures Conserves(s, Enter(s, k, nick, account, now))
  {
    var t := Enter(s, k, nick, account, now);
    if k in s.users {
      AdvanceNamed(s.users[k], now, s.rules);
      assert t.users[k].equipment == s.users[k].equipment
          || t.users[k].equipment == Advance(s.users[k], now, s.rules).equipment;
      var a := Advance(s.users[k], now, s.rules);
      assert forall slot :: Named(t.users[k], slot) <==> Named(s.users[k], slot);
      SetConserves(s, t, k);
    } else {
      assert forall slot :: !Named(t.users[k], slot);
      forall slot ensures Held(t.users, slot) <==> Held(s.users, slot) {
        if Held(s.users, slot) {
          var j :| j in s.users && Named(s.users[j], slot);
          assert Named(t.users[j], slot);
        }
      }
    }
  }

  /** Merging the guest into the account's record drops the artifact one of them holds in the slot. */
  predicate MergeLoses(guest: Runner, account: Runner, slot: Slot) {
    var taken := slot in guest.equipment && guest.equipment[slot].rating > GearIn(account.equipment, slot).rating;
    if taken then Named(account, slot) else Named(guest, slot)
  }

  /** The runner as merged holds what neither record's item displaced. */
  lemma MergedNamed(guest: Runner, row: Option<Runner>, k: Key, account: Name, nick: Name, slot: Slot)
    requires row.Some? ==> !(Holds(guest, slot) && Holds(row.value, slot))
    ensures Named(Migrated(guest, row, k, account, nick), slot) <==>
              (Named(guest, slot) || (row.Some? && Named(row.value, slot)))
              && !(row.Some? && MergeLoses(guest, row.value, slot))
  {
  }

  /** The migration of the guest at `g` loses the slot's artifact. */
  predicate MigrationLoses(s: State, g: Key, account: Name, now: Time, slot: Slot)
    requires g in s.users
  {
    var k := AccountKey(account);
    k in s.users && MergeLoses(Advance(s.users[g], now, s.rules), s.users[k], slot)
  }

  /** The merged runner holds whichever artifact the two records had, unless the migration loses it. */
  lemma MergedHolds(s: State, g: Key, account: Name, nick: Name, now: Time, slot: Slot)
    requires Kept(s, {}) && g in s.users && s.users[g].guest
    ensures var k := AccountKey(account);
            var row := if k in s.users then Some(Stored(s.users[k])) else None;
            Named(Migrated(Stored(Advance(s.users[g], now, s.rules)), row, k, account, nick), slot) <==>
              (Named(s.users[g], slot) || (k in s.users && Named(s.users[k], slot)))
              && !MigrationLoses(s, g, account, now, slot)
  {
    hide Advance, LevelMsgs;
    var k, q := AccountKey(account), Advance(s.users[g], now, s.rules);
    var row := if k in s.users then Some(Stored(s.users[k])) else None;
    AdvanceNamed(s.users[g], now, s.rules);
    AdvanceCarries(s.users[g], now, s.rules);
    assert SoundRunner(g, s.users[g], s.repo.claimed);
    assert Holds(q, slot) ==> CarriesSlot(s.users[g], q, slot);
    MergedNamed(Stored(q), row, k, account, nick, slot);
  }

  lemma MigrateLoses(s: State, g: Key, account: Name, nick: Name, now: Time, slot: Slot)
    requires Kept(s, {}) && g in s.users && s.users[g].guest
    ensures LostForGood(Migrate(s, g, account, nick, now), slot)
       <==> LostForGood(s, slot) || MigrationLoses(s, g, account, now, slot)
  {
    var k := AccountKey(account);
    MigrateShape(s, g, account, nick, now);
    MergedHolds(s, g, account, nick, now, slot);
    if MigrationLoses(s, g, account, now, slot) { LossSound(s, g, account, now, slot); }
    HeldByMerged(s.users, Migrate(s, g, account, nick, now).users, g, k, slot);
  }

  /** What a migration loses was registered, and held by one of the two. */
  lemma LossSound(s: State, g: Key, account: Name, now: Time, slot: Slot)
    requires Kept(s, {}) && g in s.users && MigrationLoses(s, g, account, now, slot)
    ensures ArtifactName(slot) in s.repo.claimed
    ensures Named(s.users[g], slot) || Named(s.users[AccountKey(account)], slot)
  {
    var k := AccountKey(account);
    AdvanceNamed(s.users[g], now, s.rules);
    assert SoundRunner(g, s.users[g], s.repo.claimed) && SoundArtifact(s.users[g], slot, s.repo.claimed);
    assert SoundRunner(k, s.users[k], s.repo.claimed) && SoundArtifact(s.users[k], slot, s.repo.claimed);
  }

  /** Who holds the slot's artifact once `g` is gone and `k` is merged. */
  lemma HeldByMerged(before: map<Key, Runner>, after: map<Key, Runner>, g: Key, k: Key, slot: Slot)
    requires OneHolder(before) && g in before && k in after && after.Keys == before.Keys - {g} + {k}
    requires forall j :: j in after && j != k ==> after[j] == before[j]
    ensures Held(after, slot) <==>
              Named(after[k], slot)
              || (Held(before, slot) && !Named(before[g], slot) && !(k in before && Named(before[k], slot)))
  {
    if Held(before, slot) {
      var j :| j in before && Named(before[j], slot);
      if j != g && j != k {
        assert Named(after[j], slot);
      }
      assert forall i :: i in before && Named(before[i], slot) ==> i == j;
    }
    if Held(after, slot) {
      var j :| j in after && Named(after[j], slot);
      if j != k {
        assert Named(before[j], slot) && (k in before && Named(before[k], slot) ==> k == j);
      }
    }
  }

  predicate JoinLoses(s: State, nick: Name, account: Option<Name>, now: Time, order: seq<Key>, slot: Slot) {
    var g := JoinFrom(s, nick, account, order);
    g.Some? && MigrationLoses(s, g.value, account.value, now, slot)
  }

  lemma JoinConserves(s: State, nick: Name, account: Option<Name>, now: Time, order: seq<Key>, slot: Slot)
    requires Kept(s, {})
    ensures LostForGood(Join(s, nick, account, now, order), slot)
       <==> LostForGood(s, slot) || JoinLoses(s, nick, account, now, order, slot)
  {
    var k := JoinKey(nick, account);
    var g := JoinFrom(s, nick, account, order);
    if g.Some? {
      MigrateLoses(s, g.value, account.value, nick, now, slot);
      EnterConserves(Migrate(s, g.value, account.value, nick, now), k, nick, account, now);
    } else {
      EnterConserves(s, k, nick, account, now);
    }
  }

  predicate BindLoses(s: State, nick: Name, account: Name, now: Time, order: seq<Key>, joinOrder: seq<Key>,
                      slot: Slot) {
    account.fold != "" && JoinLoses(Unbound(s, nick, account, now, order), nick, Some(account), now, joinOrder, slot)
  }

  lemma BindConserves(s: State, nick: Name, account: Name, now: Time, order: seq<Key>, joinOrder: seq<Key>, slot: Slot)
    requires Inv(s)
    ensures LostForGood(Bind(s, nick, account, now, order, joinOrder), slot)
       <==> LostForGood(s, slot) || BindLoses(s, nick, account, now, order, joinOrder, slot)
  {
    if account.fold != "" {
      var old_ := SwitchedFrom(s, nick, account, order);
      if old_.Some? {
        SwitchOffKeeps(s, old_.value, now);
        ChangeConserves(s, SwitchOff(s, old_.value, now), old_.value, now);
      }
      JoinConserves(Unbound(s, nick, account, now, order), nick, Some(account), now, joinOrder, slot);
    }
  }

  lemma RefreshConserves(s: State, k: Key, now: Time)
    requires k in s.users
    ensures SameGear(s, SaveAt(AdvanceAt(s, k, now), k))
  {
    ChangeSameGear(s, SaveAt(AdvanceAt(s, k, now), k), k, now);
  }

  lemma {:induction false} RefreshAllConserves(s: State, order: seq<Key>, now: Time)
    ensures SameGear(s, RefreshAll(s, order, now))
  {
    if order != [] {
      RefreshAllConserves(s, order[..|order| - 1], now);
      var s1, k := RefreshAll(s, order[..|order| - 1], now), order[|order| - 1];
      if k in s1.users {
        RefreshConserves(s1, k, now);
        SameGearThrough(s, s1, RefreshAll(s, order, now));
      }
    }
  }

  lemma {:induction false} PauseAllConserves(s: State, order: seq<Key>, now: Time)
    ensures SameGear(s, PauseAll(s, order, now))
  {
    if order != [] {
      PauseAllConserves(s, order[..|order| - 1], now);
      var s1, k := PauseAll(s, order[..|order| - 1], now), order[|order| - 1];
      if k in s1.users && s1.users[k].connected {
        ChangeSameGear(s1, PauseAt(s1, k, now), k, now);
        SameGearThrough(s, s1, PauseAt(s1, k, now));
      }
    }
  }

  lemma {:induction false} ReconcileAllConserves(s: State, order: seq<Key>, present: set<Name>, grace: int, now: Time)
    ensures SameGear(s, ReconcileAll(s, order, present, grace, now))
  {
    if order != [] {
      var rest, k := order[..|order| - 1], order[|order| - 1];
      ReconcileAllConserves(s, rest, present, grace, now);
      var s1 := ReconcileAll(s, rest, present, grace, now);
      if k in s1.users {
        ReconcileAtGear(s1, k, present, grace, now);
        SameGearThrough(s, s1, ReconcileAt(s1, k, present, grace, now));
      }
    }
  }

  lemma ReconcileAtGear(s: State, k: Key, present: set<Name>, grace: int, now: Time)
    requires k in s.users
    ensures SameGear(s, ReconcileAt(s, k, present, grace, now))
  {
    var t := s.(missing := s.missing - {k});
    ChangeSameGear(t, DropAt(t, k, now), k, now);
  }

  lemma RenameConserves(s: State, k: Key, newNick: Name, now: Time)
    requires k in s.users
    ensures Conserves(s, RenameAt(s, k, newNick, now))
  {
    hide Advance, LevelMsgs, Queue, PenaltySeconds;
    var s1 := AdvanceAt(s, k, now);
    var s2 := SetAt(s1, k, Renamed(s1.users[k], newNick, s.rules));
    ChangeConserves(s, s2, k, now);
    var t := RenameAt(s, k, newNick, now);
    var to := if Moves(s, k, newNick) then GuestKey(newNick) else k;
    forall slot ensures Held(t.users, slot) <==> Held(s2.users, slot) {
      if Held(s2.users, slot) {
        var j :| j in s2.users && Named(s2.users[j], slot);
        assert Named(t.users[if j == k then to else j], slot);
      }
      if Held(t.users, slot) {
        var j :| j in t.users && Named(t.users[j], slot);
        assert Named(s2.users[if j == to then k else j], slot);
      }
    }
    assert Conserves(s2, t);
    ConservesThrough(s, s2, t);
  }

  lemma RestartConserves(s: State, now: Time, rng: Rng, order: seq<Key>)
    requires Inv(s) && Enumerates(order, s.repo.players.Keys)
    ensures Conserves(s, Restart(s.rules, s.repo, now, rng, order))
  {
    Restarts.RestartKeeps(s, now, rng, order);
    var t := Restart(s.rules, s.repo, now, rng, order);
    forall k, slot | k in s.users ensures Named(t.users[k], slot) <==> Named(s.users[k], slot) {
      assert Restarts.Reborn(Stored(s.users[k]), t.users[k]);
    }
    SameGearConserves(s, t);
  }

  // ---- Whole runs ----

  /** The operation takes the slot's artifact out of circulation. */
  ghost predicate Losing(s: State, op: Op, slot: Slot) {
    match op
    case OpJoin(nick, account, now, order) => JoinLoses(s, nick, account, now, order, slot)
    case OpBind(nick, to, now, order, joinOrder) => BindLoses(s, nick, to, now, order, joinOrder, slot)
    case OpTick(now, orders, _) => TickLoses(s, now, orders, slot)
    case _ => false
  }

  /** Commands advance one runner and leave gear alone. */
  lemma CommandConserves(s: State, t: State, hit: Option<Key>, now: Time)
    requires t.repo.claimed == s.repo.claimed
    requires t.users == s.users
          || (hit.Some? && hit.value in s.users && hit.value in t.users
              && t.users == s.users[hit.value := t.users[hit.value]]
              && t.users[hit.value].equipment == Advance(s.users[hit.value], now, s.rules).equipment)
    ensures Conserves(s, t)
  {
    if t.users == s.users {
      ConservesNothing(s, t);
    } else {
      ChangeConserves(s, t, hit.value, now);
    }
  }

  lemma ReconcileConserves(s: State, present: set<Name>, grace: int, now: Time, order: seq<Key>)
    ensures Conserves(s, Reconcile(s, present, grace, now, order))
  {
    ReconcileAllConserves(s, order, present, grace, now);
    SameGearConserves(s, Reconcile(s, present, grace, now, order));
  }

  lemma PauseConserves(s: State, now: Time, order: seq<Key>)
    ensures Conserves(s, DisconnectAll(s, now, order))
  {
    PauseAllConserves(s, order, now);
    SameGearConserves(s, DisconnectAll(s, now, order));
  }

  lemma RosterConserves(s: State, op: Op)
    requires op.OpDisconnect? || op.OpRename? || op.OpTop?
    ensures Conserves(s, Apply(s, op))
  {
    hide RenameAt, RefreshAll, Advance, LevelMsgs, Queue, PenaltySeconds;
    match op
    case OpDisconnect(nick, kind, now, order) =>
      CommandConserves(s, Disconnect(s, nick, kind, now, order), Find(s.users, None, nick, order), now);
    case OpRename(nick, newNick, now, order) =>
      var hit := Find(s.users, None, nick, order);
      if hit.Some? && s.users[hit.value].connected {
        RenameConserves(s, hit.value, newNick, now);
      } else {
        ConservesNothing(s, s);
      }
    case OpTop(now, order) =>
      RefreshAllConserves(s, order, now);
      SameGearConserves(s, RefreshAll(s, order, now));
  }

  lemma AliasConserves(s: State, identity: Option<Key>, nick: Name, alias: Option<Name>, now: Time, order: seq<Key>)
    ensures Conserves(s, SetAlias(s, identity, nick, alias, now, order).0)
  {
    CommandConserves(s, SetAlias(s, identity, nick, alias, now, order).0, Find(s.users, identity, nick, order), now);
  }

  lemma StanceConserves(s: State, identity: Option<Key>, nick: Name, stance: Stance, now: Time, order: seq<Key>)
    ensures Conserves(s, SetStance(s, identity, nick, stance, now, order).0)
  {
    CommandConserves(s, SetStance(s, identity, nick, stance, now, order).0, Find(s.users, identity, nick, order), now);
  }

  lemma FactionConserves(s: State, identity: Option<Key>, nick: Name, faction: Faction, now: Time, order: seq<Key>)
    ensures Conserves(s, SetFaction(s, identity, nick, faction, now, order).0)
  {
    CommandConserves(s, SetFaction(s, identity, nick, faction, now, order).0, Find(s.users, identity, nick, order),
                     now);
  }

  lemma HeardConserves(s: State, op: Op)
    requires op.OpActivity? || op.OpStatus? || op.OpClaimDeadDrop?
    ensures Conserves(s, Apply(s, op))
  {
    hide Advance, LevelMsgs, Queue, PenaltySeconds, LevelDuration;
    CommandConserves(s, Apply(s, op), Find(s.users, op.identity, op.nick, op.order), op.now);
  }

  /** An artifact is out of circulation after an operation exactly if it was before or the operation loses it. */
  lemma OpConserves(s: State, op: Op, slot: Slot)
    requires Inv(s) && Sensible(s, op)
    ensures LostForGood(Apply(s, op), slot) <==> LostForGood(s, slot) || Losing(s, op, slot)
  {
    hide Join, Bind, SetAlias, SetStance, SetFaction, Activity, Disconnect, DisconnectAll, Reconcile, Rename,
      RefreshAll, ClaimDeadDrop, Tick, Restart;
    match op
    case OpJoin(nick, account, now, order) => JoinConserves(s, nick, account, now, order, slot);
    case OpBind(nick, to, now, order, joinOrder) => BindConserves(s, nick, to, now, order, joinOrder, slot);
    case OpSetAlias(identity, nick, alias, now, order) => AliasConserves(s, identity, nick, alias, now, order);
    case OpSetStance(identity, nick, stance, now, order) => StanceConserves(s, identity, nick, stance, now, order);
    case OpSetFaction(identity, nick, faction, now, order) => FactionConserves(s, identity, nick, faction, now, order);
    case OpActivity(_, _, _, _, _, _, _) => HeardConserves(s, op);
    case OpStatus(_, _, _, _) => HeardConserves(s, op);
    case OpDisconnect(_, _, _, _) => RosterConserves(s, op);
    case OpDisconnectAll(now, order) => PauseConserves(s, now, order);
    case OpReconcile(present, grace, now, order) => ReconcileConserves(s, present, grace, now, order);
    case OpRename(_, _, _, _) => RosterConserves(s, op);
    case OpTop(_, _) => RosterConserves(s, op);
    case OpClaimDeadDrop(_, _, _, _, _, _) => HeardConserves(s, op);
    case OpForcePirate(now) => ConservesNothing(s, ForcePirate(s, now));
    case OpTick(now, orders, champion) => TickConserves(s, now, orders, champion, slot);
    case OpRestart(now, rng, order) => RestartConserves(s, now, rng, order);
  }

  lemma StepLoses(states: seq<State>, ops: seq<Op>, i: nat, slot: Slot)
    requires Run(states, ops) && i < |ops| && Inv(states[i])
    ensures LostForGood(states[i + 1], slot) <==> LostForGood(states[i], slot) || Losing(states[i], ops[i], slot)
  {
    assert StepAt(states, ops, i);
    OpConserves(states[i], ops[i], slot);
  }

  ghost predicate LosesAt(states: seq<State>, ops: seq<Op>, i: nat, slot: Slot)
    requires i < |states| && i < |ops|
  {
    Losing(states[i], ops[i], slot)
  }

  /** What is lost stays lost, and an artifact is lost exactly when some step of the run lost it. */
  lemma {:induction false} LostExactlyWhenLosing(states: seq<State>, ops: seq<Op>, n: nat, slot: Slot)
    requires Run(states, ops) && n <= |ops|
    ensures LostForGood(states[n], slot) <==>
              LostForGood(states[0], slot) || exists i: nat :: i < n && LosesAt(states, ops, i, slot)
  {
    if n > 0 {
      LostExactlyWhenLosing(states, ops, n - 1, slot);
      RunKeeps(states, ops, n - 1);
      StepLoses(states, ops, n - 1, slot);
      assert Losing(states[n - 1], ops[n - 1], slot) <==> LosesAt(states, ops, n - 1, slot);
    }
  }

  /**
   Conservation: since the store was empty, an artifact is claimed if and only if exactly one runner holds
   it under its name, unless a step of the run lost it; and then it is claimed and held by nobody for good.
   */
  lemma ClaimedIffHeld(states: seq<State>, ops: seq<Op>, rules: Tuning, now: Time, rng: Rng, n: nat, slot: Slot)
    requires FromEmpty(states, ops, rules, now, rng) && n <= |ops|
    ensures var lost := exists i: nat :: i < n && LosesAt(states, ops, i, slot);
            var s := states[n];
            && (ArtifactName(slot) in s.repo.claimed <==> Held(s.users, slot) || lost)
            && (lost ==> !Held(s.users, slot))
            && (forall j, k :: j in s.users && k in s.users && Named(s.users[j], slot) && Named(s.users[k], slot) ==>
                  j == k)
  {
    BootKeeps(rules, now, rng);
    RunKeeps(states, ops, n);
    LostExactlyWhenLosing(states, ops, n, slot);
    var s := states[n];
    assert !LostForGood(states[0], slot);
    forall k | k in s.users ensures SoundArtifact(s.users[k], slot, s.repo.claimed) {
      assert SoundRunner(k, s.users[k], s.repo.claimed);
    }
  }

  // ---- Releasing a leaked deck ----

  /** A leaked artifact deck cannot be given back: the registry does not know the name it is released under. */
  lemma LeakedReleaseFreesNothing(s: State, k: Key)
    requires Core(s.users, s.repo.claimed) && k in s.users && Holds(s.users[k], Deck)
    requires s.users[k].equipment[Deck].name.leaked
    ensures LostForGood(s, Deck) && LostForGood(RetireAt(s, k, Deck), Deck)
  {
    RetireConserves(s, k, Deck);
    assert SoundRunner(k, s.users[k], s.repo.claimed) && SoundArtifact(s.users[k], Deck, s.repo.claimed);
  }
}
