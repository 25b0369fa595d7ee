/** Drops, burn-outs, abandonment and theft keep one holder per artifact. */
module Economy {
  import opened Grid
  import opened Progression
  import opened StoreRows
  import opened Machine
  import opened Invariants

  /** Everything a tick's work on one runner leaves alone about it. */
  predicate SameProfile(p: Runner, q: Runner) {
    && q.identity == p.identity && q.account == p.account && q.nick == p.nick && q.alias == p.alias
    && q.guest == p.guest && q.connected == p.connected && q.faction == p.faction
    && q.lastFactionSwapAt == p.lastFactionSwapAt && q.level >= p.level
    && (!p.connected ==> q.lastSeenAt == p.lastSeenAt)
  }

  /** From `s` to `t` only the runner at `k` was worked on. */
  ghost predicate Worked(s: State, t: State, k: Key) {
    && t.rules == s.rules && t.world == s.world && t.repo.world == s.repo.world && t.missing == s.missing
    && t.users.Keys == s.users.Keys
    && (forall j :: j in s.users && j != k ==> t.users[j] == s.users[j])
    && (k in s.users ==> SameProfile(s.users[k], t.users[k]))
  }

  lemma WorkedTransitive(s: State, t: State, u: State, k: Key)
    requires Worked(s, t, k) && Worked(t, u, k)
    ensures Worked(s, u, k)
  {
  }

  lemma AdvanceWorks(s: State, k: Key, now: Time, dirty: set<Key>)
    requires Kept(s, dirty) && k in s.users && k in dirty
    ensures Kept(AdvanceAt(s, k, now), dirty)
    ensures Worked(s, AdvanceAt(s, k, now), k)
  {
    AdvanceKeeps(s, k, now, dirty);
    assert dirty + {k} == dirty;
    AdvanceFrame(s.users[k], now, s.rules);
  }

  lemma SetWorks(s: State, k: Key, q: Runner, dirty: set<Key>)
    requires Kept(s, dirty) && k in s.users && k in dirty
    requires Carries(s.users[k], q) && SameProfile(s.users[k], q)
    ensures Kept(SetAt(s, k, q), dirty)
    ensures Worked(s, SetAt(s, k, q), k)
  {
    SetKeeps(s, k, q, dirty);
    assert dirty + {k} == dirty;
  }

  /** Changes that leave gear alone. */
  lemma IdleWorks(s: State, k: Key, q: Runner, dirty: set<Key>)
    requires Kept(s, dirty) && k in s.users && k in dirty
    requires SameProfile(s.users[k], q) && q.equipment == s.users[k].equipment
    ensures Kept(SetAt(s, k, q), dirty)
    ensures Worked(s, SetAt(s, k, q), k)
  {
    SetWorks(s, k, q, dirty);
  }

  // ---- Drops ----

  /** Nobody holds an artifact the registry does not know. */
  lemma UnclaimedUnheld(users: map<Key, Runner>, claimed: Registry, slot: Slot)
    requires Core(users, claimed) && ArtifactName(slot) !in claimed
    ensures forall j :: j in users ==> !Holds(users[j], slot)
  {
    forall j | j in users ensures !Holds(users[j], slot) {
      assert SoundRunner(j, users[j], claimed);
      assert SoundArtifact(users[j], slot, claimed);
    }
  }

  /** Equipping a runner with an artifact nobody holds, once it is registered. */
  lemma EquipKeepsCore(users: map<Key, Runner>, claimed: Registry, k: Key, slot: Slot, item: Item, owner: Key)
    requires Core(users, claimed) && k in users
    requires forall j :: j in users ==> !Holds(users[j], slot)
    requires item.name.base == Artifact(slot) && 1 < item.breaksAt <= users[k].level + MAX_LIFE
    ensures var q := users[k].(equipment := users[k].equipment[slot := item]);
            Core(users[k := q], claimed[ArtifactName(slot) := owner])
  {
    var q := users[k].(equipment := users[k].equipment[slot := item]);
    var after, claimed' := users[k := q], claimed[ArtifactName(slot) := owner];
    forall j | j in after ensures SoundRunner(j, after[j], claimed') {
      assert SoundRunner(j, users[j], claimed);
      forall sl ensures SoundArtifact(after[j], sl, claimed') {
        assert SoundArtifact(users[j], sl, claimed);
      }
    }
    forall i, j, sl | i in after && j in after && Holds(after[i], sl) && Holds(after[j], sl) ensures i == j {
      if sl == slot {
        assert i == k && j == k;
      } else {
        assert Holds(users[i], sl) && Holds(users[j], sl);
      }
    }
  }

  /** Owners do not matter to the core, only which artifacts are registered. */
  lemma CoreReadsKeys(users: map<Key, Runner>, claimed: Registry, other: Registry)
    requires Core(users, claimed) && claimed.Keys <= other.Keys
    ensures Core(users, other)
  {
    forall k | k in users ensures SoundRunner(k, users[k], other) {
      assert SoundRunner(k, users[k], claimed);
      assert forall slot :: SoundArtifact(users[k], slot, claimed) ==> SoundArtifact(users[k], slot, other);
    }
  }

  lemma AwardKeeps(s: State, k: Key, slot: Slot, dirty: set<Key>)
    requires Kept(s, dirty) && k in s.users && k in dirty && ArtifactName(slot) !in s.repo.claimed
    ensures Kept(Award(s, k, slot), dirty)
    ensures Worked(s, Award(s, k, slot), k)
  {
    UnclaimedUnheld(s.users, s.repo.claimed, slot);
    EquipKeepsCore(s.users, s.repo.claimed, k, slot, FreshArtifact(slot, s.users[k].level, UniqueLife(s.rng)), k);
    var t := Award(s, k, slot);
    assert forall j :: j !in dirty ==> (Mirrors(s.users, s.repo.players, j) ==> Mirrors(t.users, t.repo.players, j));
  }

  lemma LootKeeps(s: State, k: Key, exclude: Option<ItemName>, dirty: set<Key>)
    requires Kept(s, dirty) && k in s.users && k in dirty
    ensures Kept(RareLoot(s, k, exclude), dirty)
    ensures Worked(s, RareLoot(s, k, exclude), k)
  {
    var hit := LootSlot(s, k, exclude);
    if hit.Some? {
      AwardKeeps(Skip(Skip(s)), k, hit.value, dirty);
    }
  }

  // ---- Burn-out and abandonment ----

  /** Taking the artifact off its only holder frees its registry entry. */
  lemma RetireCore(users: map<Key, Runner>, claimed: Registry, k: Key, slot: Slot, gear: Item)
    requires Core(users, claimed) && k in users && Holds(users[k], slot) && !gear.unique
    ensures var q := users[k].(equipment := users[k].equipment[slot := gear]);
            Core(users[k := q], claimed - {users[k].equipment[slot].name})
  {
    var q := users[k].(equipment := users[k].equipment[slot := gear]);
    var after, claimed' := users[k := q], claimed - {users[k].equipment[slot].name};
    assert SoundRunner(k, users[k], claimed) && SoundArtifact(users[k], slot, claimed);
    forall j | j in after ensures SoundRunner(j, after[j], claimed') {
      assert SoundRunner(j, users[j], claimed);
      forall sl ensures SoundArtifact(after[j], sl, claimed') {
        assert SoundArtifact(users[j], sl, claimed);
      }
    }
    assert forall j, sl :: j in after && Holds(after[j], sl) ==> Holds(users[j], sl);
  }

  lemma RetireKeeps(s: State, k: Key, slot: Slot, dirty: set<Key>)
    requires Kept(s, dirty) && k in s.users && k in dirty && Holds(s.users[k], slot)
    ensures Kept(RetireAt(s, k, slot), dirty)
    ensures Worked(s, RetireAt(s, k, slot), k)
  {
    var t := RetireAt(s, k, slot);
    RetireCore(s.users, s.repo.claimed, k, slot, StandardItem(slot, s.users[k].level));
    assert forall j :: j !in dirty ==> (Mirrors(s.users, s.repo.players, j) ==> Mirrors(t.users, t.repo.players, j));
  }

  lemma BurnSlotKeeps(t: TS, k: Key, slot: Slot, dirty: set<Key>)
    requires Kept(t.s, dirty) && k in t.s.users && k in dirty
    ensures var u := BurnSlot(t, k, slot);
            Kept(u.s, dirty) && Worked(t.s, u.s, k) && t.out <= u.out
  {
    if BurnsOut(t.s.users[k], slot) {
      var s := RetireAt(t.s, k, slot);
      RetireKeeps(t.s, k, slot, dirty);
      LootKeeps(s, k, Some(t.s.users[k].equipment[slot].name), dirty);
      WorkedTransitive(t.s, s, BurnSlot(t, k, slot).s, k);
    }
  }

  lemma {:induction false} BurnSlotsKeep(t: TS, k: Key, n: nat, dirty: set<Key>)
    requires Kept(t.s, dirty) && k in t.s.users && k in dirty && n <= |SLOTS|
    ensures var u := BurnSlots(t, k, n);
            Kept(u.s, dirty) && Worked(t.s, u.s, k) && t.out <= u.out
  {
    if n > 0 {
      BurnSlotsKeep(t, k, n - 1, dirty);
      BurnSlotKeeps(BurnSlots(t, k, n - 1), k, SLOTS[n - 1], dirty);
      WorkedTransitive(t.s, BurnSlots(t, k, n - 1).s, BurnSlots(t, k, n).s, k);
    }
  }

  lemma RetireSlotKeeps(t: TS, k: Key, slot: Slot, dirty: set<Key>)
    requires Kept(t.s, dirty) && k in t.s.users && k in dirty
    ensures var u := RetireSlot(t, k, slot);
            && Kept(u.s, dirty) && Worked(t.s, u.s, k) && t.out <= u.out
            && (u.out == t.out ==> u.s.users == t.s.users && u.s.repo == t.s.repo)
  {
    hide RetireAt, Kept;
    if Holds(t.s.users[k], slot) {
      RetireKeeps(t.s, k, slot, dirty);
    }
  }

  lemma {:induction false} RetireSlotsKeep(t: TS, k: Key, n: nat, dirty: set<Key>)
    requires Kept(t.s, dirty) && k in t.s.users && k in dirty && n <= |SLOTS|
    ensures var u := RetireSlots(t, k, n);
            && Kept(u.s, dirty) && Worked(t.s, u.s, k) && t.out <= u.out
            && (u.out == t.out ==> u.s.users == t.s.users && u.s.repo == t.s.repo)
  {
    hide RetireSlot, Kept;
    if n > 0 {
      RetireSlotsKeep(t, k, n - 1, dirty);
      var u := RetireSlots(t, k, n - 1);
      RetireSlotKeeps(u, k, SLOTS[n - 1], dirty);
      WorkedTransitive(t.s, u.s, RetireSlots(t, k, n).s, k);
    }
  }

  lemma AbandonKeeps(t: TS, k: Key)
    requires Kept(t.s, {}) && k in t.s.users
    ensures var u := Abandon(t, k);
            Kept(u.s, {}) && Worked(t.s, u.s, k) && t.out <= u.out
  {
    RetireSlotsKeep(TS(t.s, []), k, |SLOTS|, {k});
    var u := RetireSlots(TS(t.s, []), k, |SLOTS|);
    if u.out != [] {
      SaveKeeps(u.s, k, {k});
      assert {k} - {k} == {};
    }
  }

  // ---- Theft ----

  lemma StealCore(users: map<Key, Runner>, claimed: Registry, w: Key, l: Key, slot: Slot)
    requires Core(users, claimed) && w in users && l in users && w != l && Holds(users[l], slot)
    ensures Core(users[l := users[l].(equipment := users[l].equipment[slot := StandardItem(slot, users[l].level)])],
                 claimed)
    ensures forall j :: j in users && j != l ==> !Holds(users[j], slot)
    ensures ArtifactName(slot) in claimed
  {
    var p := users[l];
    var q := p.(equipment := p.equipment[slot := StandardItem(slot, p.level)]);
    assert SoundRunner(l, p, claimed) && SoundArtifact(p, slot, claimed);
    assert Carries(p, q);
    assert forall j :: j in users ==> Carries(users[j], users[j]);
    CoreCarries(users, users[l := q], claimed);
  }

  lemma StealKeeps(s: State, w: Key, l: Key, slot: Slot, dirty: set<Key>)
    requires Kept(s, dirty) && w in s.users && l in s.users && w != l && {w, l} <= dirty && Holds(s.users[l], slot)
    ensures Kept(StealAt(s, w, l, slot), dirty)
  {
    var t := StealAt(s, w, l, slot);
    var p, q := s.users[w], s.users[l];
    var bare := s.users[l := q.(equipment := q.equipment[slot := StandardItem(slot, q.level)])];
    var item := q.equipment[slot];
    var stolen := item.(breaksAt := p.level + Max(1, item.breaksAt - q.level));
    StealCore(s.users, s.repo.claimed, w, l, slot);
    assert SoundRunner(l, q, s.repo.claimed) && SoundArtifact(q, slot, s.repo.claimed);
    EquipKeepsCore(bare, s.repo.claimed, w, slot, stolen, w);
    assert t.users == bare[w := p.(equipment := p.equipment[slot := stolen])];
    assert t.repo.claimed.Keys == s.repo.claimed[ArtifactName(slot) := w].Keys;
    CoreReadsKeys(t.users, s.repo.claimed[ArtifactName(slot) := w], t.repo.claimed);
    assert forall j :: j !in dirty ==> (Mirrors(s.users, s.repo.players, j) ==> Mirrors(t.users, t.repo.players, j));
  }

  // ---- Lifespans ----

  /** Every artifact the runner holds has levels left. */
  ghost predicate Lively(p: Runner) {
    forall slot :: Holds(p, slot) ==> p.equipment[slot].breaksAt > p.level
  }

  /** A roll of the drop table equips at most one fresh artifact. */
  lemma LootShape(s: State, k: Key, exclude: Option<ItemName>)
    requires k in s.users
    ensures var hit, p := LootSlot(s, k, exclude), s.users[k];
            RareLoot(s, k, exclude).users == if hit.None? then s.users else
              s.users[k := p.(equipment := p.equipment[hit.value :=
                FreshArtifact(hit.value, p.level, UniqueLife(Rest(Rest(s.rng))))])]
  {
  }

  /** What the slot holds has levels left, unless it is what `p` held there, which the pass has yet to check. */
  ghost predicate Refreshed(p: Runner, q: Runner, sl: Slot, checked: bool) {
    && q.level == p.level
    && (Holds(q, sl) && q.equipment[sl].breaksAt <= q.level ==>
          !checked && Holds(p, sl) && p.equipment[sl] == q.equipment[sl])
  }

  lemma LootFresh(s: State, k: Key, exclude: Option<ItemName>, slot: Slot)
    requires k in s.users
    ensures Refreshed(s.users[k], RareLoot(s, k, exclude).users[k], slot, false)
  {
    LootShape(s, k, exclude);
  }

  lemma RetireRefreshes(p: Runner, slot: Slot, item: Item, q: Runner, sl: Slot)
    requires Refreshed(p.(equipment := p.equipment[slot := item]), q, sl, false) && !item.unique
    ensures Refreshed(p, q, sl, slot == sl)
  {
  }

  lemma BurnSlotFresh(t: TS, k: Key, slot: Slot, sl: Slot)
    requires Kept(t.s, {k}) && k in t.s.users
    ensures Refreshed(t.s.users[k], BurnSlot(t, k, slot).s.users[k], sl, slot == sl)
  {
    var p := t.s.users[k];
    if BurnsOut(p, slot) {
      var s, name := RetireAt(t.s, k, slot), Some(p.equipment[slot].name);
      LootFresh(s, k, name, sl);
      RetireRefreshes(p, slot, StandardItem(slot, p.level), RareLoot(s, k, name).users[k], sl);
    } else {
      assert SoundRunner(k, p, t.s.repo.claimed) && SoundArtifact(p, slot, t.s.repo.claimed);
    }
  }

  lemma StaysRefreshed(p: Runner, q: Runner, u: Runner, sl: Slot, checked: bool)
    requires q.level == p.level && Refreshed(q, u, sl, checked) && (checked || Refreshed(p, q, sl, true))
    ensures Refreshed(p, u, sl, true)
  {
  }

  /** After the burn-out pass over the first slots, what those hold has levels left. */
  lemma {:induction false} BurnSlotsRefresh(t: TS, k: Key, n: nat, i: nat)
    requires Kept(t.s, {k}) && k in t.s.users && i < n <= |SLOTS|
    ensures Refreshed(t.s.users[k], BurnSlots(t, k, n).s.users[k], SLOTS[i], true)
    decreases n
  {
    hide BurnSlot, Kept, Refreshed;
    BurnSlotsKeep(t, k, n - 1, {k});
    BurnSlotsLevel(t, k, n - 1);
    if i < n - 1 {
      BurnSlotsRefresh(t, k, n - 1, i);
    }
    var u := BurnSlots(t, k, n - 1);
    BurnSlotFresh(u, k, SLOTS[n - 1], SLOTS[i]);
    StaysRefreshed(t.s.users[k], u.s.users[k], BurnSlots(t, k, n).s.users[k], SLOTS[i], SLOTS[n - 1] == SLOTS[i]);
  }

  lemma {:induction false} BurnSlotsLevel(t: TS, k: Key, n: nat)
    requires Kept(t.s, {k}) && k in t.s.users && n <= |SLOTS|
    ensures BurnSlots(t, k, n).s.users[k].level == t.s.users[k].level
  {
    if n > 0 {
      BurnSlotsLevel(t, k, n - 1);
      BurnSlotsKeep(t, k, n - 1, {k});
      BurnSlotFresh(BurnSlots(t, k, n - 1), k, SLOTS[n - 1], SLOTS[n - 1]);
    }
  }

  lemma SlotListed(slot: Slot) returns (i: nat)
    ensures i < |SLOTS| && SLOTS[i] == slot
  {
    i := match slot case WeaponRig => 0 case ArmorPlating => 1 case NeuralImplant => 2 case Deck => 3 case Drone => 4;
  }

  lemma BurnOutLeavesLively(t: TS, k: Key)
    requires Kept(t.s, {k}) && k in t.s.users
    ensures Lively(BurnSlots(t, k, |SLOTS|).s.users[k])
  {
    var q := BurnSlots(t, k, |SLOTS|).s.users[k];
    forall slot ensures Holds(q, slot) ==> q.equipment[slot].breaksAt > q.level {
      var i := SlotListed(slot);
      BurnSlotsRefresh(t, k, |SLOTS|, i);
    }
  }
}
