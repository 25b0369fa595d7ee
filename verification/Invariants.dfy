/**
 What every reachable state keeps: keys name their runners, one holder per artifact and a registry
 entry behind every holder, distinct aliases, and a store that mirrors memory.
 */
module Invariants {
  import opened Grid
  import opened Progression
  import opened StoreRows
  import opened Machine

  // ---- The invariant ----

  const MAX_LIFE: int := 8

  /** An artifact is its slot's own, registered, and has at most eight levels left. */
  ghost predicate SoundArtifact(p: Runner, slot: Slot, claimed: Registry) {
    Holds(p, slot) ==>
      && p.equipment[slot].name.base == Artifact(slot)
      && ArtifactName(slot) in claimed
      && 1 < p.equipment[slot].breaksAt <= p.level + MAX_LIFE
  }

  ghost predicate SoundRunner(k: Key, p: Runner, claimed: Registry) {
    p.identity == k && (p.guest <==> k.Guest?) && forall slot :: SoundArtifact(p, slot, claimed)
  }

  ghost predicate OneHolder(users: map<Key, Runner>) {
    forall i, j, slot :: i in users && j in users && Holds(users[i], slot) && Holds(users[j], slot) ==> i == j
  }

  ghost predicate AliasesDistinct(users: map<Key, Runner>) {
    forall i, j :: i in users && j in users && i != j && users[i].alias.Some? && users[j].alias.Some?
      ==> !EqualFold(users[i].alias.value, users[j].alias.value)
  }

  ghost predicate Core(users: map<Key, Runner>, claimed: Registry) {
    && (forall k :: k in users ==> SoundRunner(k, users[k], claimed))
    && OneHolder(users)
    && AliasesDistinct(users)
  }

  /** The store's row of `k` is what saving the runner at `k` would write. */
  predicate Mirrors(users: map<Key, Runner>, players: map<Key, Runner>, k: Key) {
    RowOf(players, k) == if k in users then Some(Stored(users[k])) else None
  }

  /** The store mirrors memory except for the runners still being worked on. */
  ghost predicate Synced(users: map<Key, Runner>, players: map<Key, Runner>, dirty: set<Key>) {
    forall k :: k !in dirty ==> Mirrors(users, players, k)
  }

  ghost predicate Kept(s: State, dirty: set<Key>) {
    Core(s.users, s.repo.claimed) && Synced(s.users, s.repo.players, dirty)
  }

  ghost predicate WorldSaved(s: State) {
    s.repo.world == StoredWorld(s.world)
  }

  /** The invariant of the engine between public operations. */
  ghost predicate Inv(s: State) {
    Kept(s, {}) && WorldSaved(s)
  }

  // ---- Changes that only carry gear along ----

  /** `q` is `p` at no lower level, with no artifact that `p` did not have and the same names besides. */
  ghost predicate Carries(p: Runner, q: Runner) {
    && q.identity == p.identity && q.guest == p.guest && q.alias == p.alias && q.level >= p.level
    && forall slot :: Holds(q, slot) ==> CarriesSlot(p, q, slot)
  }

  ghost predicate CarriesSlot(p: Runner, q: Runner, slot: Slot)
    requires Holds(q, slot)
  {
    && Holds(p, slot)
    && q.equipment[slot].name.base == p.equipment[slot].name.base
    && q.equipment[slot].breaksAt == p.equipment[slot].breaksAt
  }

  lemma CarriesTransitive(p: Runner, q: Runner, r: Runner)
    requires Carries(p, q) && Carries(q, r)
    ensures Carries(p, r)
  {
    forall slot | Holds(r, slot) ensures CarriesSlot(p, r, slot) {
      assert CarriesSlot(q, r, slot);
      assert CarriesSlot(p, q, slot);
    }
  }

  /** Runners may be dropped or carried along without endangering the core. */
  lemma CoreCarries(before: map<Key, Runner>, after: map<Key, Runner>, claimed: Registry)
    requires Core(before, claimed)
    requires forall k :: k in after ==> k in before && Carries(before[k], after[k])
    ensures Core(after, claimed)
  {
    forall k | k in after ensures SoundRunner(k, after[k], claimed) {
      assert SoundRunner(k, before[k], claimed);
      forall slot ensures SoundArtifact(after[k], slot, claimed) {
        if Holds(after[k], slot) {
          assert CarriesSlot(before[k], after[k], slot);
          assert SoundArtifact(before[k], slot, claimed);
        }
      }
    }
    forall i, j, slot | i in after && j in after && Holds(after[i], slot) && Holds(after[j], slot) ensures i == j {
      assert CarriesSlot(before[i], after[i], slot) && CarriesSlot(before[j], after[j], slot);
    }
  }

  lemma KeptGrows(s: State, dirty: set<Key>, more: set<Key>)
    requires Kept(s, dirty) && dirty <= more
    ensures Kept(s, more)
  {
  }

  lemma SetKeeps(s: State, k: Key, q: Runner, dirty: set<Key>)
    requires Kept(s, dirty) && k in s.users && Carries(s.users[k], q)
    ensures Kept(SetAt(s, k, q), dirty + {k})
  {
    assert forall j :: j in s.users ==> Carries(s.users[j], s.users[j]);
    CoreCarries(s.users, s.users[k := q], s.repo.claimed);
    assert forall j :: j !in dirty + {k} ==> Mirrors(s.users, s.repo.players, j);
  }

  lemma SaveKeeps(s: State, k: Key, dirty: set<Key>)
    requires Kept(s, dirty) && k in s.users
    ensures Kept(SaveAt(s, k), dirty - {k})
  {
    assert forall j :: j !in dirty - {k} && j != k ==> Mirrors(s.users, s.repo.players, j);
  }

  lemma InstallCarries(p: Runner, m: Meter, r: Rules)
    requires Carries(p, WithMeter(p, m))
    ensures Carries(p, WithMeter(p, Promote(m, r)))
  {
    var q, q' := WithMeter(p, m), WithMeter(p, Promote(m, r));
    forall slot | Holds(q', slot) ensures CarriesSlot(p, q', slot) {
      assert Holds(q, slot) && CarriesSlot(p, q, slot);
      assert q'.equipment[slot] == q.equipment[slot];
    }
  }

  lemma {:induction false} LoopCarries(p: Runner, m: Meter, r: Rules)
    requires Carries(p, WithMeter(p, m))
    ensures Carries(p, WithMeter(p, LevelLoop(m, r)))
    decreases m.progress
  {
    if m.progress >= LevelDuration(r, m.level) {
      InstallCarries(p, m, r);
      LoopCarries(p, Promote(m, r), r);
    }
  }

  lemma AdvanceCarries(p: Runner, now: Time, r: Tuning)
    ensures Carries(p, Advance(p, now, r))
  {
    if p.connected {
      var q := Clocked(p, now, r);
      assert Carries(p, q);
      assert WithMeter(q, MeterOf(q)) == q;
      LoopCarries(q, MeterOf(q), r);
      CarriesTransitive(p, q, Advance(p, now, r));
    }
  }

  /** What an advance leaves alone. */
  lemma AdvanceFrame(p: Runner, now: Time, r: Tuning)
    ensures var q := Advance(p, now, r);
            && q.identity == p.identity && q.guest == p.guest && q.account == p.account && q.nick == p.nick
            && q.alias == p.alias && q.connected == p.connected && q.faction == p.faction
            && q.lastFactionSwapAt == p.lastFactionSwapAt && q.level >= p.level && q.district == p.district
            && (!p.connected ==> q.lastSeenAt == p.lastSeenAt)
  {
    if p.connected {
      LevelLoopKeeps(MeterOf(Clocked(p, now, r)), r);
    }
  }

  lemma AdvanceKeeps(s: State, k: Key, now: Time, dirty: set<Key>)
    requires Kept(s, dirty) && k in s.users
    ensures Kept(AdvanceAt(s, k, now), dirty + {k})
  {
    AdvanceCarries(s.users[k], now, s.rules);
    SetKeeps(s, k, Advance(s.users[k], now, s.rules), dirty);
  }

  /** Advance, change without touching gear or names, save. */
  lemma ChangeKeeps(s: State, k: Key, now: Time, q: Runner)
    requires Kept(s, {}) && k in s.users && Carries(Advance(s.users[k], now, s.rules), q)
    ensures Kept(SaveAt(SetAt(AdvanceAt(s, k, now), k, q), k), {})
  {
    AdvanceKeeps(s, k, now, {});
    SetKeeps(AdvanceAt(s, k, now), k, q, {k});
    assert {} + {k} == {k} && {k} + {k} == {k};
    SaveKeeps(SetAt(AdvanceAt(s, k, now), k, q), k, {k});
    assert {k} - {k} == {};
  }
}
