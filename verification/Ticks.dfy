/** The tick keeps the invariant and leaves every linked runner's artifacts with levels to live. */
module Ticks {
  import opened Grid
  import opened Progression
  import opened StoreRows
  import opened Machine
  import opened Invariants
  import opened Economy

  /** From `s` to `t` every runner stays and keeps its profile. */
  ghost predicate Profiled(s: State, t: State) {
    && t.rules == s.rules && t.missing == s.missing && t.users.Keys == s.users.Keys
    && forall k :: k in s.users ==> SameProfile(s.users[k], t.users[k])
  }

  lemma ProfiledTransitive(s: State, t: State, u: State)
    requires Profiled(s, t) && Profiled(t, u)
    ensures Profiled(s, u)
  {
    forall k | k in s.users ensures SameProfile(s.users[k], u.users[k]) {
      assert SameProfile(s.users[k], t.users[k]) && SameProfile(t.users[k], u.users[k]);
    }
  }

  /** The world is saved unless there is news that will have it saved. */
  predicate Told(t: TS) {
    t.out == [] ==> t.s.repo.world == StoredWorld(t.s.world)
  }

  ghost predicate SameWorld(s: State, t: State) {
    t.world == s.world && t.repo.world == s.repo.world
  }

  // ---- World events ----

  lemma SwapTickKeeps(t: TS, now: Time)
    requires Kept(t.s, {}) && Told(t)
    ensures var u := SwapTick(t, now);
            Kept(u.s, {}) && Told(u) && Profiled(t.s, u.s) && u.s.users == t.s.users
  {
    hide NextSwap;
  }

  lemma ChangeProfiled(s: State, k: Key, now: Time, q: Runner)
    requires Kept(s, {}) && k in s.users
    requires Carries(Advance(s.users[k], now, s.rules), q) && SameProfile(Advance(s.users[k], now, s.rules), q)
    ensures var t := SaveAt(SetAt(AdvanceAt(s, k, now), k, q), k);
            Kept(t, {}) && Profiled(s, t) && SameWorld(s, t)
  {
    ChangeKeeps(s, k, now, q);
    AdvanceFrame(s.users[k], now, s.rules);
  }

  lemma {:induction false} SettleAllKeeps(s: State, team: seq<Key>, success: bool, now: Time)
    requires Kept(s, {})
    ensures var t := SettleAll(s, team, success, now);
            Kept(t, {}) && Profiled(s, t) && SameWorld(s, t)
  {
    hide Advance, LevelMsgs, Queue, LevelDuration;
    if team != [] {
      SettleAllKeeps(s, team[..|team| - 1], success, now);
      var s1, k := SettleAll(s, team[..|team| - 1], success, now), team[|team| - 1];
      if k in s1.users {
        ChangeProfiled(s1, k, now, Settled(Advance(s1.users[k], now, s1.rules), success, s1.rules));
        ProfiledTransitive(s, s1, SettleAt(s1, k, success, now));
      }
    }
  }

  lemma ResolveContractKeeps(t: TS, now: Time)
    requires Kept(t.s, {}) && Told(t)
    ensures var u := ResolveContract(t, now);
            Kept(u.s, {}) && Told(u) && Profiled(t.s, u.s)
  {
    if ContractDue(t.s.world, now) {
      SettleAllKeeps(t.s, t.s.world.contract.value.participants, ContractHeld(t.s), now);
    }
  }

  lemma {:induction false} AdvanceTeamKeeps(s: State, order: seq<Key>, now: Time, dirty: set<Key>)
    requires Kept(s, dirty) && forall k :: k in order && k in s.users && s.users[k].connected ==> k in dirty
    ensures var t := AdvanceTeam(s, order, now);
            Kept(t, dirty) && Profiled(s, t) && SameWorld(s, t)
  {
    if order != [] {
      var rest, k := order[..|order| - 1], order[|order| - 1];
      AdvanceTeamKeeps(s, rest, now, dirty);
      var s1 := AdvanceTeam(s, rest, now);
      if k in s1.users && s1.users[k].connected {
        assert SameProfile(s.users[k], s1.users[k]);
        AdvanceWorks(s1, k, now, dirty);
        WorkedProfiled(s1, AdvanceAt(s1, k, now), k);
        ProfiledTransitive(s, s1, AdvanceAt(s1, k, now));
      }
    }
  }

  lemma WorkedProfiled(s: State, t: State, k: Key)
    requires Worked(s, t, k)
    ensures Profiled(s, t) && SameWorld(s, t)
  {
  }

  lemma {:induction false} ConnectedProfiled(s: State, t: State, order: seq<Key>)
    requires Profiled(s, t)
    ensures ConnectedIn(t.users, order) == ConnectedIn(s.users, order)
  {
    if order != [] {
      ConnectedProfiled(s, t, order[..|order| - 1]);
      var k := order[|order| - 1];
      assert k in s.users ==> SameProfile(s.users[k], t.users[k]);
    }
  }

  lemma RaidedCarries(p: Runner, won: bool, r: Rules)
    ensures Carries(p, Raided(p, won, r)) && SameProfile(p, Raided(p, won, r))
  {
  }

  lemma PayKeeps(s: State, k: Key, won: bool, left: set<Key>)
    requires Kept(s, left + {k}) && k in s.users
    ensures var t := SaveAt(SetAt(s, k, Raided(s.users[k], won, s.rules)), k);
            Kept(t, left) && Profiled(s, t) && SameWorld(s, t)
  {
    var q := Raided(s.users[k], won, s.rules);
    RaidedCarries(s.users[k], won, s.rules);
    SetWorks(s, k, q, left + {k});
    SaveKeeps(SetAt(s, k, q), k, left + {k});
    KeptGrows(SaveAt(SetAt(s, k, q), k), left + {k} - {k}, left);
  }

  /** Paying the team saves every member. */
  lemma {:induction false} PayTeamKeeps(s: State, team: seq<Key>, won: bool, dirty: set<Key>, left: set<Key>)
    requires Kept(s, dirty) && forall k :: k in team ==> k in s.users
    requires forall k :: k in dirty ==> k in left || k in team
    ensures var t := PayTeam(s, team, won);
            Kept(t, left) && Profiled(s, t) && SameWorld(s, t)
  {
    if team != [] {
      var rest, k := team[..|team| - 1], team[|team| - 1];
      PayTeamKeeps(s, rest, won, dirty, left + {k});
      PayKeeps(PayTeam(s, rest, won), k, won, left);
      ProfiledTransitive(s, PayTeam(s, rest, won), PayTeam(s, team, won));
    } else {
      KeptGrows(s, dirty, left);
    }
  }

  lemma RaidStepKeeps(t: TS, now: Time, order: seq<Key>)
    requires Kept(t.s, {})
    ensures var u := RaidStep(t, now, order);
            Kept(u.s, {}) && u.out != [] && Profiled(t.s, u.s) && SameWorld(t.s, u.s)
  {
    var s := AdvanceTeam(t.s, order, now);
    var team := ConnectedIn(t.s.users, order);
    var dirty := set k | k in team;
    KeptGrows(t.s, {}, dirty);
    AdvanceTeamKeeps(t.s, order, now, dirty);
    ConnectedProfiled(t.s, s, order);
    if team == [] {
      KeptGrows(s, dirty, {});
    } else {
      var won := TeamWins(s, team);
      PayTeamKeeps(Skip(s), team, won, dirty, {});
      ProfiledTransitive(t.s, Skip(s), PayTeam(Skip(s), team, won));
    }
  }

  lemma ResolveRaidKeeps(t: TS, now: Time, order: seq<Key>)
    requires Kept(t.s, {}) && Told(t)
    ensures var u := ResolveRaid(t, now, order);
            Kept(u.s, {}) && Told(u) && Profiled(t.s, u.s) && u.s.world.contract == t.s.world.contract
  {
    if t.s.world.raid.Some? && now >= t.s.world.raid.value {
      RaidStepKeeps(t.(s := t.s.(world := t.s.world.(raid := None))), now, order);
    }
  }

  lemma EventCarries(k: Key, p: Runner, event: CityEvent, scarred: bool, now: Time, claimed: Registry)
    requires SoundRunner(k, p, claimed)
    ensures Carries(p, EventHit(p, event, scarred, now)) && SameProfile(p, EventHit(p, event, scarred, now))
  {
    assert SoundArtifact(p, Deck, claimed);
  }

  lemma HitKeeps(s: State, k: Key, event: CityEvent, now: Time)
    requires Kept(s, {k}) && k in s.users
    ensures Kept(HitAt(s, k, event, now), {k}) && Worked(s, HitAt(s, k, event, now), k)
  {
    hide EventHit, Draw;
    var t := if event == CorporateSweep then Skip(s) else s;
    var q := HitAt(s, k, event, now).users[k];
    assert SoundRunner(k, s.users[k], s.repo.claimed);
    EventCarries(k, s.users[k], event, event == CorporateSweep && Draw(s.rng, 20) == 0, now, s.repo.claimed);
    SetWorks(t, k, q, {k});
  }

  lemma EventAtKeeps(s: State, k: Key, event: CityEvent, now: Time)
    requires Kept(s, {})
    ensures var t := EventAt(s, k, event, now);
            Kept(t, {}) && Profiled(s, t) && SameWorld(s, t)
  {
    hide Advance, HitAt, LevelMsgs, Queue;
    if k in s.users && s.users[k].connected {
      KeptGrows(s, {}, {k});
      AdvanceWorks(s, k, now, {k});
      var s1 := AdvanceAt(s, k, now);
      HitKeeps(s1, k, event, now);
      WorkedTransitive(s, s1, HitAt(s1, k, event, now), k);
      WorkedProfiled(s, HitAt(s1, k, event, now), k);
      SaveKeeps(HitAt(s1, k, event, now), k, {k});
      KeptGrows(EventAt(s, k, event, now), {k} - {k}, {});
    }
  }

  lemma {:induction false} EventAllKeeps(s: State, order: seq<Key>, event: CityEvent, now: Time)
    requires Kept(s, {})
    ensures var t := EventAll(s, order, event, now);
            Kept(t, {}) && Profiled(s, t) && SameWorld(s, t)
  {
    if order != [] {
      EventAllKeeps(s, order[..|order| - 1], event, now);
      var s1, k := EventAll(s, order[..|order| - 1], event, now), order[|order| - 1];
      EventAtKeeps(s1, k, event, now);
      ProfiledTransitive(s, s1, EventAt(s1, k, event, now));
    }
  }

  lemma CityEventTickKeeps(t: TS, now: Time, order: seq<Key>)
    requires Kept(t.s, {}) && Told(t)
    ensures var u := CityEventTick(t, now, order);
            Kept(u.s, {}) && Told(u) && Profiled(t.s, u.s)
  {
    hide EventAll, ConnectedIn, DropCode;
    var (news, rng) := Pick(t.s, order);
    if news.Event? {
      EventAllKeeps(t.s.(rng := rng), order, news.kind, now);
    }
  }

  lemma WorldStepsKeep(t: TS, now: Time, ord: Orders)
    requires Kept(t.s, {}) && Told(t)
    ensures var u := WorldSteps(t, now, ord);
            Kept(u.s, {}) && Told(u) && Profiled(t.s, u.s)
  {
    var t1 := SwapTick(t, now);
    var t2 := ResolveContract(t1, now);
    var t3 := ResolveRaid(t2, now, ord.raid);
    var t4 := DropExpiry(t3, now);
    SwapTickKeeps(t, now);
    ResolveContractKeeps(t1, now);
    ResolveRaidKeeps(t2, now, ord.raid);
    CityEventTickKeeps(t4, now, ord.event);
    ProfiledTransitive(t.s, t1.s, t2.s);
    ProfiledTransitive(t.s, t2.s, t3.s);
    ProfiledTransitive(t.s, t4.s, CityEventTick(t4, now, ord.event).s);
  }

  // ---- One runner ----

  lemma StreakKeeps(t: TS, k: Key, now: Time)
    requires Kept(t.s, {k}) && k in t.s.users
    ensures var u := StreakStep(t, k, now);
            Kept(u.s, {k}) && Worked(t.s, u.s, k) && t.out <= u.out
  {
    IdleWorks(t.s, k, StreakStep(t, k, now).s.users[k], {k});
  }

  lemma DriftKeeps(t: TS, k: Key, now: Time)
    requires Kept(t.s, {k}) && k in t.s.users
    ensures var u := DriftStep(t, k, now);
            Kept(u.s, {k}) && Worked(t.s, u.s, k) && t.out <= u.out
  {
    IdleWorks(t.s, k, DriftStep(t, k, now).s.users[k], {k});
  }

  lemma IceCarries(p: Runner, scarred: bool, r: Rules)
    ensures Carries(p, IceWon(p, scarred, r)) && SameProfile(p, IceWon(p, scarred, r))
    ensures Carries(p, IceLost(p, scarred, r)) && SameProfile(p, IceLost(p, scarred, r))
  {
  }

  lemma EncounterKeeps(t: TS, k: Key, champion: Faction)
    requires Kept(t.s, {k}) && k in t.s.users
    ensures var u := Encounter(t, k, champion);
            Kept(u.s, {k}) && Worked(t.s, u.s, k) && t.out <= u.out
  {
    var s, p := t.s, t.s.users[k];
    var rng := Rest(s.rng);
    if Draw(s.rng, 100) < IceWinChance(p, champion) {
      var q := IceWon(p, Draw(rng, 25) == 0, s.rules);
      IceCarries(p, Draw(rng, 25) == 0, s.rules);
      SetWorks(s, k, q, {k});
      var s1 := SetAt(s, k, q).(rng := Rest(rng));
      LootKeeps(s1, k, None, {k});
      WorkedTransitive(s, s1, RareLoot(s1, k, None), k);
    } else {
      IceCarries(p, Draw(rng, 12) == 0, s.rules);
      SetWorks(s, k, IceLost(p, Draw(rng, 12) == 0, s.rules), {k});
    }
  }

  lemma RearmKeeps(s: State, k: Key, now: Time)
    requires Kept(s, {k}) && k in s.users
    ensures Kept(Rearm(s, k, now), {k}) && Worked(s, Rearm(s, k, now), k)
  {
    var t := SetAt(s, k, Rearmed(s.users[k], now, s.rules));
    IdleWorks(s, k, Rearmed(s.users[k], now, s.rules), {k});
    AdvanceWorks(t, k, now, {k});
    WorkedTransitive(s, t, AdvanceAt(t, k, now), k);
  }

  lemma EncounterStepKeeps(t: TS, k: Key, now: Time, champion: Faction)
    requires Kept(t.s, {k}) && k in t.s.users
    ensures var u := EncounterStep(t, k, now, champion);
            Kept(u.s, {k}) && Worked(t.s, u.s, k) && t.out <= u.out
  {
    if Due(t.s.users[k].nextEncounterAt, now) {
      var u := Encounter(t, k, champion);
      EncounterKeeps(t, k, champion);
      RearmKeeps(u.s, k, now);
      WorkedTransitive(t.s, u.s, Rearm(u.s, k, now), k);
    }
  }

  lemma AccrueKeeps(t: TS, k: Key, now: Time)
    requires Kept(t.s, {}) && k in t.s.users
    ensures var u := StreakStep(t.(s := AdvanceAt(t.s, k, now)), k, now);
            Kept(u.s, {k}) && Worked(t.s, u.s, k) && t.out <= u.out
  {
    var t1 := t.(s := AdvanceAt(t.s, k, now));
    KeptGrows(t.s, {}, {k});
    AdvanceWorks(t.s, k, now, {k});
    StreakKeeps(t1, k, now);
    WorkedTransitive(t.s, t1.s, StreakStep(t1, k, now).s, k);
  }

  lemma PassiveKeeps(t: TS, k: Key, now: Time, champion: Faction)
    requires Kept(t.s, {}) && k in t.s.users
    ensures var u := PassiveStep(t, k, now, champion);
            Kept(u.s, {k}) && Worked(t.s, u.s, k) && t.out <= u.out
  {
    hide StreakStep, DriftStep, EncounterStep, Advance, LevelMsgs, Queue;
    AccrueKeeps(t, k, now);
    var t2 := StreakStep(t.(s := AdvanceAt(t.s, k, now)), k, now);
    var t3 := DriftStep(t2, k, now);
    DriftKeeps(t2, k, now);
    EncounterStepKeeps(t3, k, now, champion);
    WorkedTransitive(t.s, t2.s, t3.s, k);
    WorkedTransitive(t.s, t3.s, EncounterStep(t3, k, now, champion).s, k);
  }

  lemma UpkeepKeeps(t: TS, k: Key)
    requires Kept(t.s, {k}) && k in t.s.users
    ensures var u := UpkeepStep(t, k);
            Kept(u.s, {}) && Worked(t.s, u.s, k) && t.out <= u.out && Lively(u.s.users[k])
  {
    var t1 := TakePending(t);
    var t2 := BurnSlots(t1, k, |SLOTS|);
    BurnSlotsKeep(t1, k, |SLOTS|, {k});
    BurnOutLeavesLively(t1, k);
    SaveKeeps(TakePending(t2).s, k, {k});
    KeptGrows(UpkeepStep(t, k).s, {k} - {k}, {});
  }

  lemma LiveStepKeeps(t: TS, k: Key, now: Time, champion: Faction)
    requires Kept(t.s, {}) && k in t.s.users
    ensures var u := LiveStep(t, k, now, champion);
            Kept(u.s, {}) && Worked(t.s, u.s, k) && t.out <= u.out && Lively(u.s.users[k])
  {
    var u := PassiveStep(t, k, now, champion);
    PassiveKeeps(t, k, now, champion);
    UpkeepKeeps(u, k);
    WorkedTransitive(t.s, u.s, UpkeepStep(u, k).s, k);
  }

  lemma PruneKeeps(s: State, k: Key)
    requires Kept(s, {}) && k in s.users
    ensures Kept(PruneAt(s, k), {})
  {
    var t := PruneAt(s, k);
    assert forall j :: j in t.users ==> Carries(s.users[j], t.users[j]);
    CoreCarries(s.users, t.users, s.repo.claimed);
    assert forall j :: Mirrors(s.users, s.repo.players, j) ==> Mirrors(t.users, t.repo.players, j);
  }

  /** What a runner's turn in the tick leaves alone, and what may become of the runner. */
  ghost predicate Turn(t: TS, u: TS, k: Key, now: Time) {
    && SameWorld(t.s, u.s) && t.out <= u.out && u.s.rules == t.s.rules && u.s.missing == t.s.missing
    && (forall j :: j != k ==> RowOf(u.s.users, j) == RowOf(t.s.users, j))
    && (k in u.s.users ==> k in t.s.users && SameProfile(t.s.users[k], u.s.users[k]))
    && (k in t.s.users && k !in u.s.users ==> Pruned(t.s.users[k], now, t.s.rules))
    && (k in u.s.users && u.s.users[k].connected ==> Lively(u.s.users[k]))
  }

  lemma RunnerStepKeeps(t: TS, k: Key, now: Time, champion: Faction)
    requires Kept(t.s, {})
    ensures Kept(RunnerStep(t, k, now, champion).s, {})
    ensures Turn(t, RunnerStep(t, k, now, champion), k, now)
  {
    hide Abandon, LiveStep;
    if k in t.s.users {
      var p := t.s.users[k];
      if Pruned(p, now, t.s.rules) {
        PruneKeeps(t.s, k);
      } else if OfflineLonger(p, now, t.s.rules.artifactRelease) {
        AbandonKeeps(t, k);
      } else if p.connected {
        LiveStepKeeps(t, k, now, champion);
      }
    }
  }

  /** What the walk over the runners leaves alone, and whom it may take away. */
  ghost predicate Walk(t: TS, u: TS, order: seq<Key>, now: Time) {
    && SameWorld(t.s, u.s) && t.out <= u.out && u.s.rules == t.s.rules && u.s.missing == t.s.missing
    && (forall j :: j in u.s.users ==> j in t.s.users && SameProfile(t.s.users[j], u.s.users[j]))
    && (forall j :: j in t.s.users && j !in u.s.users ==> j in order && Pruned(t.s.users[j], now, t.s.rules))
    && (forall j :: j in order && j in u.s.users && u.s.users[j].connected ==> Lively(u.s.users[j]))
  }

  lemma WalkOn(t: TS, t1: TS, u: TS, order: seq<Key>, k: Key, now: Time)
    requires Walk(t, t1, order, now) && Turn(t1, u, k, now)
    ensures Walk(t, u, order + [k], now)
  {
    forall j | j in u.s.users ensures j in t.s.users && SameProfile(t.s.users[j], u.s.users[j]) {
      assert j != k ==> RowOf(u.s.users, j) == RowOf(t1.s.users, j);
      assert SameProfile(t.s.users[j], t1.s.users[j]);
    }
    forall j | j in t.s.users && j !in u.s.users ensures j in order + [k] && Pruned(t.s.users[j], now, t.s.rules) {
      assert j != k ==> RowOf(u.s.users, j) == RowOf(t1.s.users, j);
      assert j in t1.s.users ==> j == k && SameProfile(t.s.users[j], t1.s.users[j]);
    }
    forall j | j in order + [k] && j in u.s.users && u.s.users[j].connected ensures Lively(u.s.users[j]) {
      assert j != k ==> RowOf(u.s.users, j) == RowOf(t1.s.users, j) && j in order;
    }
  }

  lemma {:induction false} RunnerStepsKeep(t: TS, order: seq<Key>, now: Time, champion: Faction)
    requires Kept(t.s, {})
    ensures Kept(RunnerSteps(t, order, now, champion).s, {})
    ensures Walk(t, RunnerSteps(t, order, now, champion), order, now)
  {
    if order != [] {
      var rest, k := order[..|order| - 1], order[|order| - 1];
      RunnerStepsKeep(t, rest, now, champion);
      var t1 := RunnerSteps(t, rest, now, champion);
      RunnerStepKeeps(t1, k, now, champion);
      WalkOn(t, t1, RunnerStep(t1, k, now, champion), rest, k, now);
      assert rest + [k] == order;
    }
  }

  // ---- Collisions ----

  /** From `s` to `t` only the pair was touched, and its artifacts keep levels to live. */
  ghost predicate Duel(s: State, t: State, a: Key, b: Key) {
    && t.rules == s.rules && t.missing == s.missing && SameWorld(s, t) && t.users.Keys == s.users.Keys
    && a in s.users && b in s.users
    && (forall j :: j in s.users && j != a && j != b ==> t.users[j] == s.users[j])
    && SameProfile(s.users[a], t.users[a]) && SameProfile(s.users[b], t.users[b])
    && (Lively(s.users[a]) && Lively(s.users[b]) ==> Lively(t.users[a]) && Lively(t.users[b]))
  }

  lemma DuelTransitive(s: State, t: State, u: State, a: Key, b: Key)
    requires Duel(s, t, a, b) && Duel(t, u, a, b)
    ensures Duel(s, u, a, b)
  {
  }

  /** A change of one of the pair that carries its gear along at the same level. */
  lemma SetDuels(s: State, k: Key, q: Runner, a: Key, b: Key)
    requires Kept(s, {a, b}) && a in s.users && b in s.users && (k == a || k == b)
    requires Carries(s.users[k], q) && SameProfile(s.users[k], q) && q.level == s.users[k].level
    ensures Kept(SetAt(s, k, q), {a, b}) && Duel(s, SetAt(s, k, q), a, b)
  {
    SetWorks(s, k, q, {a, b});
    if Lively(s.users[k]) {
      forall slot | Holds(q, slot) ensures q.equipment[slot].breaksAt > q.level {
        assert CarriesSlot(s.users[k], q, slot);
      }
    }
  }

  lemma WonCarries(p: Runner, kind: nat, scarred: bool, r: Rules)
    ensures Carries(p, Won(p, kind, scarred, r)) && SameProfile(p, Won(p, kind, scarred, r))
    ensures Carries(p, Machine.Lost(p, kind, r)) && SameProfile(p, Machine.Lost(p, kind, r))
  {
  }

  lemma RecordKeeps(s: State, a: Key, b: Key)
    requires Kept(s, {a, b}) && a in s.users && b in s.users && a != b
    ensures Kept(RecordBout(s, a, b), {a, b}) && Duel(s, RecordBout(s, a, b), a, b)
  {
    var s1 := SetAt(s, a, CountBout(s.users[a], b));
    SetDuels(s, a, CountBout(s.users[a], b), a, b);
    SetDuels(s1, b, CountBout(s1.users[b], a), a, b);
    DuelTransitive(s, s1, RecordBout(s, a, b), a, b);
  }

  lemma BlowsKeep(s: State, w: Key, l: Key)
    requires Kept(s, {w, l}) && w in s.users && l in s.users && w != l
    ensures Kept(Blows(s, w, l), {w, l}) && Duel(s, Blows(s, w, l), w, l)
  {
    var kind, scarred := Draw(Rest(s.rng), 4), Draw(s.rng, 20) == 0;
    var s1 := SetAt(s, w, Won(s.users[w], kind, scarred, s.rules));
    WonCarries(s.users[w], kind, scarred, s.rules);
    WonCarries(s1.users[l], kind, scarred, s.rules);
    SetDuels(s, w, Won(s.users[w], kind, scarred, s.rules), w, l);
    SetDuels(s1, l, Machine.Lost(s1.users[l], kind, s.rules), w, l);
    DuelTransitive(s, s1, Blows(s, w, l), w, l);
  }

  lemma SeparateKeeps(s: State, w: Key, l: Key, now: Time)
    requires Kept(s, {w, l}) && w in s.users && l in s.users && w != l
    ensures Kept(Separate(s, w, l, now), {}) && Duel(s, Separate(s, w, l, now), w, l)
  {
    var s1 := CooledDown(s, w, now);
    var s2 := CooledDown(s1, l, now);
    SetDuels(s, w, s1.users[w], w, l);
    SetDuels(s1, l, s2.users[l], w, l);
    DuelTransitive(s, s1, s2, w, l);
    SaveKeeps(s2, w, {w, l});
    SaveKeeps(SaveAt(s2, w), l, {w, l} - {w});
    KeptGrows(Separate(s, w, l, now), {w, l} - {w} - {l}, {});
  }

  /** A theft moves an artifact with its remaining lifespan, exactly when it has one. */
  lemma StealConserves(s: State, w: Key, l: Key, slot: Slot)
    requires w in s.users && l in s.users && w != l && Holds(s.users[l], slot)
    ensures var t := StealAt(s, w, l, slot);
            && Holds(t.users[w], slot) && !Holds(t.users[l], slot)
            && t.users[w].equipment[slot].name == s.users[l].equipment[slot].name
            && (t.users[w].equipment[slot].breaksAt - t.users[w].level
                  == s.users[l].equipment[slot].breaksAt - s.users[l].level
                <==> s.users[l].equipment[slot].breaksAt > s.users[l].level)
  {
  }

  lemma RefitLively(p: Runner, slot: Slot, item: Item)
    requires Lively(p) && (item.unique ==> item.breaksAt > p.level)
    ensures Lively(p.(equipment := p.equipment[slot := item]))
  {
    var q := p.(equipment := p.equipment[slot := item]);
    forall sl | Holds(q, sl) ensures q.equipment[sl].breaksAt > q.level {
      assert sl != slot ==> Holds(p, sl);
    }
  }

  lemma EquipDuels(s: State, k: Key, slot: Slot, item: Item, a: Key, b: Key)
    requires a in s.users && b in s.users && (k == a || k == b)
    requires item.unique ==> item.breaksAt > s.users[k].level
    ensures Duel(s, EquipAt(s, k, slot, item), a, b)
  {
    if Lively(s.users[k]) {
      RefitLively(s.users[k], slot, item);
    }
  }

  lemma StealDuels(s: State, w: Key, l: Key, slot: Slot)
    requires w in s.users && l in s.users && w != l && Holds(s.users[l], slot)
    ensures Duel(s, StealAt(s, w, l, slot), w, l)
  {
    var p, q := s.users[w], s.users[l];
    var item := q.equipment[slot].(breaksAt := p.level + Max(1, q.equipment[slot].breaksAt - q.level));
    var s1 := Register(s, item.name, w);
    var s2 := EquipAt(s1, w, slot, item);
    EquipDuels(s1, w, slot, item, w, l);
    EquipDuels(s2, l, slot, StandardItem(slot, q.level), w, l);
    DuelTransitive(s1, s2, StealAt(s, w, l, slot), w, l);
    DuelTransitive(s, s1, StealAt(s, w, l, slot), w, l);
  }

  lemma TheftKeeps(s: State, w: Key, l: Key)
    requires Kept(s, {w, l}) && w in s.users && l in s.users && w != l
    ensures Kept(Theft(s, w, l), {w, l}) && Duel(s, Theft(s, w, l), w, l)
  {
    var hit := TheftSlot(s, l);
    if hit.Some? {
      StealKeeps(Skip(Skip(s)), w, l, hit.value, {w, l});
      StealDuels(Skip(Skip(s)), w, l, hit.value);
    }
  }

  lemma AftermathKeeps(t: TS, w: Key, l: Key, now: Time, round: Option<nat>)
    requires Kept(t.s, {w, l}) && w in t.s.users && l in t.s.users && w != l
    ensures var u := Aftermath(t, w, l, now, round);
            Kept(u.s, {}) && Duel(t.s, u.s, w, l) && t.out <= u.out
  {
    var s1 := Blows(t.s, w, l);
    var s2 := Theft(s1, w, l);
    BlowsKeep(t.s, w, l);
    TheftKeeps(s1, w, l);
    SeparateKeeps(s2, w, l, now);
    DuelTransitive(t.s, s1, s2, w, l);
    DuelTransitive(t.s, s2, Separate(s2, w, l, now), w, l);
  }

  lemma BoutKeeps(t: TS, a: Key, b: Key, now: Time)
    requires Kept(t.s, {}) && a in t.s.users && b in t.s.users && a != b
    ensures var u := Bout(t, a, b, now);
            Kept(u.s, {}) && Duel(t.s, u.s, a, b) && t.out <= u.out
  {
    hide Aftermath, Upset, Round, CountBout, Lively;
    KeptGrows(t.s, {}, {a, b});
    RecordKeeps(t.s, a, b);
    var s := RecordBout(t.s, a, b);
    var u := t.(s := Skip(Skip(s)));
    assert {a, b} == {b, a};
    if Upset(s, a, b) {
      AftermathKeeps(u, b, a, now, Round(s.users, a, b));
    } else {
      AftermathKeeps(u, a, b, now, Round(s.users, a, b));
    }
    DuelTransitive(t.s, u.s, Bout(t, a, b, now).s, a, b);
  }

  ghost predicate AllLively(users: map<Key, Runner>) {
    forall k :: k in users && users[k].connected ==> Lively(users[k])
  }

  lemma DuelProfiled(s: State, t: State, a: Key, b: Key)
    requires Duel(s, t, a, b) && s.users[a].connected && s.users[b].connected
    ensures Profiled(s, t) && (AllLively(s.users) ==> AllLively(t.users))
  {
  }

  lemma CollisionKeeps(t: TS, now: Time, order: seq<Key>, poolOrder: seq<Key>)
    requires Kept(t.s, {})
    ensures var u := CollisionStep(t, now, order, poolOrder);
            && Kept(u.s, {}) && Profiled(t.s, u.s) && SameWorld(t.s, u.s) && t.out <= u.out
            && (AllLively(t.s.users) ==> AllLively(u.s.users))
  {
    var due := CollisionDue(t.s.users, order, now);
    if due != [] {
      var a := due[Draw(t.s.rng, |due|)];
      assert a in due;
      var s := Skip(t.s);
      var pool := Pool(s.users, poolOrder, a);
      if pool != [] {
        var (b, rng) := Opponent(s, pool, a);
        BoutKeeps(t.(s := s.(rng := rng)), a, b, now);
        DuelProfiled(s.(rng := rng), CollisionStep(t, now, order, poolOrder).s, a, b);
      }
    }
  }

  // ---- The tick ----

  lemma TickStepsKeep(s: State, now: Time, ord: Orders, champion: Faction)
    requires Inv(s)
    ensures var t := TickSteps(s, now, ord, champion);
            && Kept(t.s, {}) && Told(t) && t.s.rules == s.rules && t.s.missing == s.missing
            && (forall j :: j in t.s.users ==> j in s.users && SameProfile(s.users[j], t.s.users[j]))
            && (forall j :: j in s.users && j !in t.s.users ==> Pruned(s.users[j], now, s.rules))
            && (Enumerates(ord.runners, s.users.Keys) ==> AllLively(t.s.users))
  {
    var t0 := TS(s.(pending := []), []);
    var t1 := WorldSteps(t0, now, ord);
    WorldStepsKeep(t0, now, ord);
    var t2 := t1.(out := t1.out + s.pending);
    var t3 := RunnerSteps(t2, ord.runners, now, champion);
    RunnerStepsKeep(t2, ord.runners, now, champion);
    CollisionKeeps(t3, now, ord.due, ord.pool);
    TickFrame(s, t1.s, t3.s, CollisionStep(t3, now, ord.due, ord.pool).s, now);
  }

  lemma TickFrame(s: State, t1: State, t3: State, t4: State, now: Time)
    requires t1.rules == s.rules && t1.users.Keys == s.users.Keys && t4.users.Keys == t3.users.Keys
    requires forall k :: k in s.users ==> SameProfile(s.users[k], t1.users[k])
    requires forall k :: k in t3.users ==> k in t1.users && SameProfile(t1.users[k], t3.users[k])
    requires forall k :: k in t3.users ==> SameProfile(t3.users[k], t4.users[k])
    requires forall k :: k in t1.users && k !in t3.users ==> Pruned(t1.users[k], now, t1.rules)
    ensures forall k :: k in t4.users ==> k in s.users && SameProfile(s.users[k], t4.users[k])
    ensures forall k :: k in s.users && k !in t4.users ==> Pruned(s.users[k], now, s.rules)
  {
    forall k | k in t4.users ensures k in s.users && SameProfile(s.users[k], t4.users[k]) {
      assert SameProfile(s.users[k], t1.users[k]) && SameProfile(t1.users[k], t3.users[k]);
    }
    forall k | k in s.users && k !in t4.users ensures Pruned(s.users[k], now, s.rules) {
      assert SameProfile(s.users[k], t1.users[k]);
    }
  }

  lemma TickKeeps(s: State, now: Time, ord: Orders, champion: Faction)
    requires Inv(s)
    ensures Inv(Tick(s, now, ord, champion))
  {
    TickStepsKeep(s, now, ord, champion);
  }

  /** After a tick every linked runner's artifacts have levels left, so theft never stretches a life. */
  lemma TickLeavesLively(s: State, now: Time, ord: Orders, champion: Faction)
    requires Inv(s) && Enumerates(ord.runners, s.users.Keys)
    ensures AllLively(Tick(s, now, ord, champion).users)
  {
    TickStepsKeep(s, now, ord, champion);
  }

  // ---- Artifacts change hands with the levels they have left ----

  /** `q` holds the artifact `p` held in the slot, under the same name and with as many levels left. */
  predicate Passed(p: Runner, q: Runner, slot: Slot) {
    && Holds(p, slot) && Holds(q, slot) && q.equipment[slot].name == p.equipment[slot].name
    && q.equipment[slot].breaksAt - q.level == p.equipment[slot].breaksAt - p.level
  }

  lemma PassedThrough(p: Runner, q: Runner, r: Runner, slot: Slot)
    requires Passed(p, q, slot) && Passed(q, r, slot)
    ensures Passed(p, r, slot) && Holds(q, slot)
  {
  }

  /** Whoever holds the artifact in `after` has it from somebody in `before`. */
  ghost predicate Stems(before: map<Key, Runner>, after: map<Key, Runner>, slot: Slot) {
    forall k :: k in after && Holds(after[k], slot) ==> exists j :: j in before && Passed(before[j], after[k], slot)
  }

  /** Whoever holds the artifact in `before` has it passed on to somebody in `after`. */
  ghost predicate Lives(before: map<Key, Runner>, after: map<Key, Runner>, slot: Slot) {
    forall j :: j in before && Holds(before[j], slot) ==> exists k :: k in after && Passed(before[j], after[k], slot)
  }

  /** From `s` to `t` the slot's artifact is held as before, by whomever. */
  ghost predicate Lasts(s: State, t: State, slot: Slot) {
    Stems(s.users, t.users, slot) && Lives(s.users, t.users, slot)
  }

  lemma StemsThrough(a: map<Key, Runner>, b: map<Key, Runner>, c: map<Key, Runner>, slot: Slot)
    requires Stems(a, b, slot) && Stems(b, c, slot)
    ensures Stems(a, c, slot)
  {
    hide Passed, Holds;
    forall k | k in c && Holds(c[k], slot) ensures exists j :: j in a && Passed(a[j], c[k], slot) {
      var i :| i in b && Passed(b[i], c[k], slot);
      PassedHolds(b[i], c[k], slot);
      var j :| j in a && Passed(a[j], b[i], slot);
      PassedThrough(a[j], b[i], c[k], slot);
    }
  }

  lemma LivesThrough(a: map<Key, Runner>, b: map<Key, Runner>, c: map<Key, Runner>, slot: Slot)
    requires Lives(a, b, slot) && Lives(b, c, slot)
    ensures Lives(a, c, slot)
  {
    hide Passed, Holds;
    forall j | j in a && Holds(a[j], slot) ensures exists k :: k in c && Passed(a[j], c[k], slot) {
      var i :| i in b && Passed(a[j], b[i], slot);
      PassedHolds(a[j], b[i], slot);
      var k :| k in c && Passed(b[i], c[k], slot);
      PassedThrough(a[j], b[i], c[k], slot);
    }
  }

  lemma PassedHolds(p: Runner, q: Runner, slot: Slot)
    requires Passed(p, q, slot)
    ensures Holds(p, slot) && Holds(q, slot)
  {
  }

  lemma LastsThrough(s: State, t: State, u: State, slot: Slot)
    requires Lasts(s, t, slot) && Lasts(t, u, slot)
    ensures Lasts(s, u, slot)
  {
    hide Stems, Lives;
    StemsThrough(s.users, t.users, u.users, slot);
    LivesThrough(s.users, t.users, u.users, slot);
  }

  /** Nobody's level or artifact changes. */
  lemma SameLasts(s: State, t: State, slot: Slot)
    requires t.users.Keys == s.users.Keys
    requires forall k :: k in s.users && (Holds(s.users[k], slot) || Holds(t.users[k], slot)) ==>
               Passed(s.users[k], t.users[k], slot)
    ensures Lasts(s, t, slot)
  {
  }

  lemma FightPasses(p: Runner, kind: nat, scarred: bool, r: Rules, slot: Slot)
    ensures var q := Won(p, kind, scarred, r); Holds(p, slot) || Holds(q, slot) ==> Passed(p, q, slot)
    ensures var q := Machine.Lost(p, kind, r); Holds(p, slot) || Holds(q, slot) ==> Passed(p, q, slot)
  {
    hide LevelDuration, Max, ClampHeat, AppendUnique, CollisionLoss;
  }

  lemma BlowsLast(s: State, w: Key, l: Key, slot: Slot)
    requires w in s.users && l in s.users && w != l
    ensures Lasts(s, Blows(s, w, l), slot)
  {
    var kind, scarred := Draw(Rest(s.rng), 4), Draw(s.rng, 20) == 0;
    FightPasses(s.users[w], kind, scarred, s.rules, slot);
    FightPasses(s.users[l], kind, scarred, s.rules, slot);
    hide Won, Machine.Lost, Passed;
    StillPass(s, Blows(s, w, l), w, l, slot);
  }

  /** All but the pair are untouched, and the pair's artifacts pass. */
  lemma StillPass(s: State, t: State, a: Key, b: Key, slot: Slot)
    requires a in s.users && b in s.users && t.users.Keys == s.users.Keys
    requires forall k :: k in s.users && k != a && k != b ==> t.users[k] == s.users[k]
    requires Holds(s.users[a], slot) || Holds(t.users[a], slot) ==> Passed(s.users[a], t.users[a], slot)
    requires Holds(s.users[b], slot) || Holds(t.users[b], slot) ==> Passed(s.users[b], t.users[b], slot)
    ensures Lasts(s, t, slot)
  {
    SameLasts(s, t, slot);
  }

  lemma RecordLasts(s: State, a: Key, b: Key, slot: Slot)
    requires a in s.users && b in s.users && a != b
    ensures Lasts(s, RecordBout(s, a, b), slot)
  {
    hide CountBout;
    CountPasses(s.users[a], b, slot);
    CountPasses(s.users[b], a, slot);
    StillPass(s, RecordBout(s, a, b), a, b, slot);
  }

  lemma CountPasses(p: Runner, rival: Key, slot: Slot)
    ensures Holds(p, slot) || Holds(CountBout(p, rival), slot) ==> Passed(p, CountBout(p, rival), slot)
  {
  }

  lemma SeparateLasts(s: State, w: Key, l: Key, now: Time, slot: Slot)
    requires w in s.users && l in s.users && w != l
    ensures Lasts(s, Separate(s, w, l, now), slot)
  {
    hide Stored;
    StillPass(s, Separate(s, w, l, now), w, l, slot);
  }

  lemma StealElsewhere(s: State, w: Key, l: Key, stolen: Slot, slot: Slot)
    requires w in s.users && l in s.users && w != l && Holds(s.users[l], stolen) && slot != stolen
    ensures Lasts(s, StealAt(s, w, l, stolen), slot)
  {
    hide StandardItem, Max, Transfer, Lasts;
    StillPass(s, StealAt(s, w, l, stolen), w, l, slot);
  }

  /** The artifact goes from its only holder to another runner. */
  lemma HandLasts(s: State, t: State, w: Key, l: Key, slot: Slot)
    requires OneHolder(s.users) && w in s.users && l in s.users && w != l && t.users.Keys == s.users.Keys
    requires forall k :: k in s.users && k != w && k != l ==> t.users[k] == s.users[k]
    requires Passed(s.users[l], t.users[w], slot) && !Holds(t.users[l], slot)
    ensures Lasts(s, t, slot)
  {
    PassedHolds(s.users[l], t.users[w], slot);
    hide Passed, Holds;
    assert forall j :: j in s.users && Holds(s.users[j], slot) ==> j == l;
    forall k | k in t.users && Holds(t.users[k], slot)
      ensures exists j :: j in s.users && Passed(s.users[j], t.users[k], slot)
    {
      assert k == w;
    }
  }

  /** A stolen artifact lasts as long as it would have, if it had any levels left. */
  lemma StealLasts(s: State, w: Key, l: Key, stolen: Slot, slot: Slot)
    requires Core(s.users, s.repo.claimed) && w in s.users && l in s.users && w != l && Holds(s.users[l], stolen)
    requires Lively(s.users[l])
    ensures Lasts(s, StealAt(s, w, l, stolen), slot)
  {
    hide Lasts, StandardItem, Max, Transfer;
    if slot != stolen {
      StealElsewhere(s, w, l, stolen, slot);
    } else {
      StealConserves(s, w, l, stolen);
      HandLasts(s, StealAt(s, w, l, stolen), w, l, slot);
    }
  }

  lemma TheftLasts(s: State, w: Key, l: Key, slot: Slot)
    requires Core(s.users, s.repo.claimed) && w in s.users && l in s.users && w != l && Lively(s.users[l])
    ensures Lasts(s, Theft(s, w, l), slot)
  {
    hide StealAt, Core, Lively;
    var hit := TheftSlot(s, l);
    if hit.Some? {
      StealLasts(Skip(Skip(s)), w, l, hit.value, slot);
    } else {
      SameLasts(s, Theft(s, w, l), slot);
    }
  }

  lemma AftermathLasts(t: TS, w: Key, l: Key, now: Time, round: Option<nat>, slot: Slot)
    requires Kept(t.s, {w, l}) && w in t.s.users && l in t.s.users && w != l
    requires Lively(t.s.users[w]) && Lively(t.s.users[l])
    ensures Lasts(t.s, Aftermath(t, w, l, now, round).s, slot)
  {
    hide Blows, Theft, Separate, Lasts, TheftSlot;
    var s1 := Blows(t.s, w, l);
    BlowsKeep(t.s, w, l);
    BlowsLast(t.s, w, l, slot);
    TheftKeeps(s1, w, l);
    TheftLasts(s1, w, l, slot);
    SeparateLasts(Theft(s1, w, l), w, l, now, slot);
    LastsThrough(t.s, s1, Theft(s1, w, l), slot);
    LastsThrough(t.s, Theft(s1, w, l), Separate(Theft(s1, w, l), w, l, now), slot);
  }

  lemma SkipLasts(s: State, t: State, u: State, slot: Slot)
    requires Lasts(s, t, slot) && u.users == t.users
    ensures Lasts(s, u, slot)
  {
  }

  lemma BoutLasts(t: TS, a: Key, b: Key, now: Time, slot: Slot)
    requires Kept(t.s, {}) && a in t.s.users && b in t.s.users && a != b
    requires Lively(t.s.users[a]) && Lively(t.s.users[b])
    ensures Lasts(t.s, Bout(t, a, b, now).s, slot)
  {
    hide RecordBout, Aftermath, Upset, Round, Lasts, Lively;
    KeptGrows(t.s, {}, {a, b});
    RecordKeeps(t.s, a, b);
    RecordLasts(t.s, a, b, slot);
    var s := RecordBout(t.s, a, b);
    var u := t.(s := Skip(Skip(s)));
    SkipLasts(t.s, s, u.s, slot);
    assert {a, b} == {b, a};
    var (w, l) := if Upset(s, a, b) then (b, a) else (a, b);
    AftermathLasts(u, w, l, now, Round(s.users, a, b), slot);
    LastsThrough(t.s, u.s, Aftermath(u, w, l, now, Round(s.users, a, b)).s, slot);
  }

  lemma CollisionLasts(t: TS, now: Time, order: seq<Key>, poolOrder: seq<Key>, slot: Slot)
    requires Kept(t.s, {}) && AllLively(t.s.users)
    ensures Lasts(t.s, CollisionStep(t, now, order, poolOrder).s, slot)
  {
    hide Bout, Opponent, Lively, CollisionDue, Core, Synced;
    var due := CollisionDue(t.s.users, order, now);
    SameLasts(t.s, t.s, slot);
    if due != [] {
      var a := due[Draw(t.s.rng, |due|)];
      assert a in due;
      var s := Skip(t.s);
      var pool := Pool(s.users, poolOrder, a);
      if pool != [] {
        var (b, rng) := Opponent(s, pool, a);
        BoutLasts(t.(s := s.(rng := rng)), a, b, now, slot);
      }
    }
  }

  /**
   A tick's collision, theft included, leaves every artifact with its name and exactly the levels it had left:
   whoever loses one was caught up earlier in the tick, when everything burnt out was retired.
   */
  lemma TheftKeepsLife(s: State, now: Time, ord: Orders, champion: Faction, slot: Slot)
    requires Inv(s) && Walks(ord, s.users.Keys)
    ensures var t := WorldSteps(TS(s.(pending := []), []), now, ord);
            var u := RunnerSteps(t.(out := t.out + s.pending), ord.runners, now, champion);
            && Lasts(u.s, CollisionStep(u, now, ord.due, ord.pool).s, slot)
            && Tick(s, now, ord, champion).users == CollisionStep(u, now, ord.due, ord.pool).s.users
  {
    hide WorldSteps, RunnerSteps, CollisionStep, Kept, Lasts;
    var t0 := TS(s.(pending := []), []);
    var t := WorldSteps(t0, now, ord);
    assert Kept(t0.s, {}) by { PendingIrrelevant(s); }
    WorldStepsKeep(t0, now, ord);
    var t2 := t.(out := t.out + s.pending);
    RunnerStepsKeep(t2, ord.runners, now, champion);
    CollisionLasts(RunnerSteps(t2, ord.runners, now, champion), now, ord.due, ord.pool, slot);
  }

  lemma PendingIrrelevant(s: State)
    requires Inv(s)
    ensures Kept(s.(pending := []), {})
  {
  }
}
