/** A restart brings back what was saved: the same runners, gear and registry, offline. */
module Restarts {
  import opened Grid
  import opened StoreRows
  import opened Machine
  import opened Invariants
  import Economy

  lemma TruncateTwice(t: Time)
    ensures Truncate(Truncate(t)) == Truncate(t)
    ensures Truncate(t) <= t < Truncate(t) + SECOND
  {
  }

  lemma StoredWorldTwice(w: World)
    ensures StoredWorld(StoredWorld(w)) == StoredWorld(w)
  {
    TruncateTwice(w.pirateUntil);
    TruncateTwice(w.nextCityEventAt);
    TruncateTwice(w.swapUntil);
    TruncateTwice(w.swapStartedAt);
    TruncateTwice(w.nextSwapAt);
  }

  /** `p` is the row brought back offline, with other clocks at most. */
  ghost predicate Reborn(row: Runner, p: Runner) {
    p == row.(connected := false, lastProgressAt := p.lastProgressAt, lastHeatAt := p.lastHeatAt,
              nextDistrictAt := p.nextDistrictAt, nextEncounterAt := p.nextEncounterAt,
              nextCollisionAt := p.nextCollisionAt)
  }

  lemma {:induction false} FixIdle(eq: Loadout, level: Level, rng: Rng, n: nat)
    requires n <= |SLOTS| && forall slot :: GearIn(eq, slot).unique ==> GearIn(eq, slot).breaksAt != 0
    ensures FixSlots(eq, level, rng, n) == (eq, rng)
  {
    if n > 0 {
      FixIdle(eq, level, rng, n - 1);
    }
  }

  lemma LoadedReborn(k: Key, row: Runner, now: Time, r: Rules, rng: Rng, claimed: Registry)
    requires SoundRunner(k, row, claimed)
    ensures Reborn(row, Loaded(row, now, r, rng).0)
  {
    forall slot ensures GearIn(row.equipment, slot).unique ==> GearIn(row.equipment, slot).breaksAt != 0 {
      assert SoundArtifact(row, slot, claimed);
    }
    FixIdle(row.equipment, row.level, rng, |SLOTS|);
  }

  /** After loading the rows listed so far from a sound store. */
  ghost predicate LoadedSoFar(players: map<Key, Runner>, s: State, t: State, order: seq<Key>) {
    && t.world == s.world && t.rules == s.rules && t.pending == s.pending && t.missing == s.missing
    && t.repo.claimed == s.repo.claimed && t.repo.world == s.repo.world
    && (forall k :: k in t.users <==> k in order && k in players)
    && (forall k :: k in t.users ==> Reborn(players[k], t.users[k]) && Mirrors(t.users, t.repo.players, k))
    && (forall k :: k !in t.users ==> RowOf(t.repo.players, k) == RowOf(players, k))
  }

  lemma LoadOne(players: map<Key, Runner>, s: State, t: State, order: seq<Key>, k: Key, p: Runner, rng: Rng)
    requires LoadedSoFar(players, s, t, order) && k in players && k !in order && Reborn(players[k], p)
    ensures LoadedSoFar(players, s, SaveAt(SetAt(t, k, p), k).(rng := rng), order + [k])
  {
    var u := SaveAt(SetAt(t, k, p), k).(rng := rng);
    forall j | j in u.users ensures Reborn(players[j], u.users[j]) && Mirrors(u.users, u.repo.players, j) {
      if j != k { assert Mirrors(t.users, t.repo.players, j); }
    }
  }

  lemma {:induction false} LoadRowsLoads(s: State, order: seq<Key>, now: Time)
    requires s.users == map[] && (forall i, j :: 0 <= i < j < |order| ==> order[i] != order[j])
    requires forall k :: k in s.repo.players ==> SoundRunner(k, s.repo.players[k], s.repo.claimed)
    ensures LoadedSoFar(s.repo.players, s, LoadRows(s, order, now), order)
  {
    if order != [] {
      var rest, k := order[..|order| - 1], order[|order| - 1];
      LoadRowsLoads(s, rest, now);
      var t := LoadRows(s, rest, now);
      assert order == rest + [k] && k !in rest;
      assert RowOf(t.repo.players, k) == RowOf(s.repo.players, k);
      if k in s.repo.players {
        var (p, rng) := Loaded(s.repo.players[k], now, s.rules, t.rng);
        LoadedReborn(k, s.repo.players[k], now, s.rules, t.rng, s.repo.claimed);
        LoadOne(s.repo.players, s, t, rest, k, p, rng);
      }
    }
  }

  /** The state a restart of `s` starts loading into. */
  function Blank(s: State, rng: Rng): State {
    State(s.rules, map[], s.repo, s.repo.world, [], map[], rng)
  }

  /** Every runner comes back, offline, with the gear and name it was saved with. */
  ghost predicate Recovered(s: State, t: State) {
    && t.rules == s.rules && t.repo.claimed == s.repo.claimed && t.pending == [] && t.missing == map[]
    && t.users.Keys == s.users.Keys
    && (forall k :: k in s.users ==> Reborn(Stored(s.users[k]), t.users[k]))
    && t.world.contract == s.world.contract && t.world.recent == s.world.recent
    && t.world.deadDrop == s.world.deadDrop && t.world.raid == s.world.raid
    && t.world.swapUntil == Truncate(s.world.swapUntil) && t.world.swapStartedAt == Truncate(s.world.swapStartedAt)
    && (Truncate(s.world.nextSwapAt) != 0 ==> t.world.nextSwapAt == Truncate(s.world.nextSwapAt))
  }

  lemma RowSound(s: State, k: Key)
    requires Kept(s, {})
    ensures k in s.repo.players <==> k in s.users
    ensures k in s.users ==> s.repo.players[k] == Stored(s.users[k])
    ensures k in s.users ==> SoundRunner(k, s.repo.players[k], s.repo.claimed)
  {
    assert Mirrors(s.users, s.repo.players, k);
    if k in s.users {
      assert SoundRunner(k, s.users[k], s.repo.claimed);
      assert forall slot :: SoundArtifact(s.users[k], slot, s.repo.claimed)
                        ==> SoundArtifact(Stored(s.users[k]), slot, s.repo.claimed);
    }
  }

  lemma RebornCarries(p: Runner, q: Runner)
    requires Reborn(Stored(p), q)
    ensures Carries(p, q)
  {
  }

  lemma ReloadRecovers(s: State, t: State, order: seq<Key>, rng: Rng)
    requires Kept(s, {}) && Enumerates(order, s.repo.players.Keys)
    requires LoadedSoFar(s.repo.players, Blank(s, rng), t, order)
    ensures t.users.Keys == s.users.Keys
    ensures forall k :: k in s.users ==> Reborn(Stored(s.users[k]), t.users[k])
  {
    forall k ensures k in t.users <==> k in s.users
      ensures k in s.users ==> Reborn(Stored(s.users[k]), t.users[k])
    {
      RowSound(s, k);
    }
  }

  lemma ReloadKeeps(s: State, t: State, order: seq<Key>, rng: Rng)
    requires Kept(s, {}) && Enumerates(order, s.repo.players.Keys)
    requires LoadedSoFar(s.repo.players, Blank(s, rng), t, order)
    ensures Kept(t, {})
  {
    ReloadRecovers(s, t, order, rng);
    forall k | k in t.users ensures Carries(s.users[k], t.users[k]) {
      RebornCarries(s.users[k], t.users[k]);
    }
    CoreCarries(s.users, t.users, s.repo.claimed);
    forall k ensures Mirrors(t.users, t.repo.players, k) {
      RowSound(s, k);
      assert k !in t.users ==> RowOf(t.repo.players, k) == RowOf(s.repo.players, k);
    }
  }

  lemma LoadKeeps(s: State, now: Time, rng: Rng, order: seq<Key>)
    requires Kept(s, {}) && Enumerates(order, s.repo.players.Keys)
    ensures var t := LoadRows(Blank(s, rng), order, now);
            && Kept(t, {}) && t.users.Keys == s.users.Keys
            && (forall k :: k in s.users ==> Reborn(Stored(s.users[k]), t.users[k]))
            && LoadedSoFar(s.repo.players, Blank(s, rng), t, order)
  {
    forall k | k in s.repo.players ensures SoundRunner(k, s.repo.players[k], s.repo.claimed) {
      RowSound(s, k);
    }
    LoadRowsLoads(Blank(s, rng), order, now);
    ReloadRecovers(s, LoadRows(Blank(s, rng), order, now), order, rng);
    ReloadKeeps(s, LoadRows(Blank(s, rng), order, now), order, rng);
  }

  lemma RestartKeeps(s: State, now: Time, rng: Rng, order: seq<Key>)
    requires Inv(s) && Enumerates(order, s.repo.players.Keys)
    ensures Inv(Restart(s.rules, s.repo, now, rng, order))
    ensures Recovered(s, Restart(s.rules, s.repo, now, rng, order))
  {
    hide LoadRows;
    LoadKeeps(s, now, rng, order);
    StoredWorldTwice(s.world);
  }

  // ---- Timers ----

  /** The timer as it was saved, or a whole interval off if there was none. */
  predicate Rewound(at: Time, later: Time, interval: int, now: Time) {
    later == if Truncate(at) == 0 then now + interval else Truncate(at)
  }

  ghost predicate AllRewound(p: Runner, q: Runner, now: Time, r: Rules) {
    && q.lastProgressAt == q.lastHeatAt == now
    && Rewound(p.nextEncounterAt, q.nextEncounterAt, r.encounterInterval, now)
    && Rewound(p.nextCollisionAt, q.nextCollisionAt, r.collisionInterval, now)
    && Rewound(p.nextDistrictAt, q.nextDistrictAt, r.districtInterval, now)
  }

  lemma {:induction false} RowsRewound(s: State, order: seq<Key>, now: Time, players: map<Key, Runner>, k: Key)
    requires s.users == map[] && k in players && Distinct(order)
    requires k in s.repo.players && s.repo.players[k] == Stored(players[k])
    ensures var t := LoadRows(s, order, now);
            && t.rules == s.rules && (k !in order ==> RowOf(t.repo.players, k) == RowOf(s.repo.players, k))
            && (k in order ==> k in t.users && AllRewound(players[k], t.users[k], now, s.rules))
  {
    hide FixSlots, Rewound;
    if order != [] {
      var rest, j := order[..|order| - 1], order[|order| - 1];
      RowsRewound(s, rest, now, players, k);
      assert order == rest + [j] && j !in rest;
      if j == k { RowRewound(players[k], now, s.rules, LoadRows(s, rest, now).rng); }
    }
  }

  lemma RowRewound(p: Runner, now: Time, r: Rules, rng: Rng)
    ensures AllRewound(p, Loaded(Stored(p), now, r, rng).0, now, r)
  {
    hide FixSlots;
  }

  /** After a restart the clocks of every runner start anew and its timers stand as saved, to the second. */
  lemma RestartRewinds(s: State, now: Time, rng: Rng, order: seq<Key>, k: Key)
    requires Inv(s) && Enumerates(order, s.repo.players.Keys) && k in s.users
    ensures var t := Restart(s.rules, s.repo, now, rng, order);
            k in t.users && AllRewound(s.users[k], t.users[k], now, s.rules)
    ensures Rewound(s.world.nextCityEventAt, Restart(s.rules, s.repo, now, rng, order).world.nextCityEventAt,
                    s.rules.cityEventInterval, now)
  {
    hide LoadRows, AllRewound, NextSwap, Core, Synced;
    RowSound(s, k);
    RowsRewound(Blank(s, rng), order, now, s.users, k);
    LoadKeeps(s, now, rng, order);
  }

  // ---- Rows from before burn-out ----

  /** An artifact without a lifespan gets one of four to eight levels; everything else stands. */
  predicate GivenLife(eq: Loadout, fixed: Loadout, level: Level, slot: Slot) {
    var item, q := GearIn(eq, slot), GearIn(fixed, slot);
    if item.unique && item.breaksAt == 0 then
      level + 4 <= q.breaksAt <= level + 8 && q == item.(breaksAt := q.breaksAt)
    else q == item
  }

  lemma {:induction false} SlotsFixed(eq: Loadout, level: Level, rng: Rng, n: nat, i: nat)
    requires n <= |SLOTS| && i < |SLOTS|
    ensures var fixed := FixSlots(eq, level, rng, n).0;
            if i < n then GivenLife(eq, fixed, level, SLOTS[i]) else GearIn(fixed, SLOTS[i]) == GearIn(eq, SLOTS[i])
  {
    if n > 0 { SlotsFixed(eq, level, rng, n - 1, i); }
  }

  /** A row is loaded offline, with a lifespan for every artifact that has none. */
  lemma RowsGivenLife(row: Runner, now: Time, r: Rules, rng: Rng, slot: Slot)
    ensures var p := Loaded(row, now, r, rng).0;
            !p.connected && GivenLife(row.equipment, p.equipment, row.level, slot)
  {
    hide FixSlots;
    var i := Economy.SlotListed(slot);
    SlotsFixed(row.equipment, row.level, rng, |SLOTS|, i);
  }
}
