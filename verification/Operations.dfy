/** Every public operation other than the tick keeps the invariant. */
module Operations {
  import opened Grid
  import opened Progression
  import opened StoreRows
  import opened Machine
  import opened Invariants

  // ---- Migration ----

  /** Each artifact of the merged runner comes from one of the two records, with no more levels left. */
  lemma MigratedGear(guest: Runner, row: Option<Runner>, k: Key, account: Name, nick: Name, slot: Slot)
    requires Holds(Migrated(guest, row, k, account, nick), slot)
    ensures var p := Migrated(guest, row, k, account, nick);
            || (Holds(guest, slot) && p.equipment[slot] == guest.equipment[slot] && p.level >= guest.level)
            || (row.Some? && Holds(row.value, slot) && p.equipment[slot] == row.value.equipment[slot]
                && p.level >= row.value.level)
  {
  }

  lemma MigratedSound(guest: Runner, row: Option<Runner>, g: Key, k: Key, account: Name, nick: Name, claimed: Registry)
    requires k == AccountKey(account)
    requires SoundRunner(g, guest, claimed) && (row.Some? ==> SoundRunner(k, row.value, claimed))
    ensures SoundRunner(k, Migrated(guest, row, k, account, nick), claimed)
  {
    var p := Migrated(guest, row, k, account, nick);
    forall slot ensures SoundArtifact(p, slot, claimed) {
      assert SoundArtifact(guest, slot, claimed);
      assert row.Some? ==> SoundArtifact(row.value, slot, claimed);
      if Holds(p, slot) {
        MigratedGear(guest, row, k, account, nick, slot);
      }
    }
  }

  lemma StoredSound(k: Key, p: Runner, claimed: Registry)
    requires SoundRunner(k, p, claimed)
    ensures SoundRunner(k, Stored(p), claimed)
  {
    assert forall slot :: SoundArtifact(p, slot, claimed) ==> SoundArtifact(Stored(p), slot, claimed);
  }

  /** Replacing a guest by the merged account runner keeps the core. */
  lemma MergeKeepsCore(users: map<Key, Runner>, g: Key, account: Name, nick: Name, claimed: Registry)
    requires Core(users, claimed) && g in users && users[g].guest
    ensures var k := AccountKey(account);
            var row := if k in users then Some(Stored(users[k])) else None;
            Core((users - {g})[k := Migrated(Stored(users[g]), row, k, account, nick)], claimed)
  {
    var k := AccountKey(account);
    var row := if k in users then Some(Stored(users[k])) else None;
    var p := Migrated(Stored(users[g]), row, k, account, nick);
    var after := (users - {g})[k := p];
    assert SoundRunner(g, users[g], claimed);
    StoredSound(g, users[g], claimed);
    if k in users { StoredSound(k, users[k], claimed); }
    MigratedSound(Stored(users[g]), row, g, k, account, nick, claimed);
    assert forall j :: j in after ==> SoundRunner(j, after[j], claimed);
    forall i, j, slot | i in after && j in after && Holds(after[i], slot) && Holds(after[j], slot) ensures i == j {
      if i == k { MigratedGear(Stored(users[g]), row, k, account, nick, slot); }
      if j == k { MigratedGear(Stored(users[g]), row, k, account, nick, slot); }
    }
  }

  lemma ReplaceIdle(keys: seq<Key>, old_: Key, new_: Key)
    requires old_ !in keys
    ensures Replace(keys, old_, new_) == keys
  {
  }

  lemma RekeyIdle(c: Option<Contract>, old_: Key, new_: Key)
    requires !Rekeys(c, old_, new_)
    ensures Rekey(c, old_, new_) == c
  {
    if c.Some? && old_ != new_ {
      ReplaceIdle(c.value.participants, old_, new_);
    }
  }

  /** The guest's saved record and the account's saved record are what migration merges. */
  lemma MigrateShape(s: State, g: Key, account: Name, nick: Name, now: Time)
    requires Kept(s, {}) && g in s.users && s.users[g].guest
    ensures var k := AccountKey(account);
            var q := Advance(s.users[g], now, s.rules);
            var row := if k in s.users then Some(Stored(s.users[k])) else None;
            var p := Migrated(Stored(q), row, k, account, nick);
            var t := Migrate(s, g, account, nick, now);
            && t.users == (s.users[g := q] - {g})[k := p]
            && t.repo == s.repo.(players := s.repo.players[g := Stored(q)][k := Stored(p)] - {g})
            && t.world == s.world.(contract := Rekey(s.world.contract, g, k))
  {
    assert SoundRunner(g, s.users[g], s.repo.claimed);
    assert Mirrors(s.users, s.repo.players, AccountKey(account));
  }

  lemma MigrateKeeps(s: State, g: Key, account: Name, nick: Name, now: Time)
    requires Kept(s, {}) && g in s.users && s.users[g].guest
    ensures Kept(Migrate(s, g, account, nick, now), {})
  {
    var k := AccountKey(account);
    var t := Migrate(s, g, account, nick, now);
    var q := Advance(s.users[g], now, s.rules);
    MigrateShape(s, g, account, nick, now);
    AdvanceFrame(s.users[g], now, s.rules);
    AdvanceKeeps(s, g, now, {});
    assert SoundRunner(g, s.users[g], s.repo.claimed);
    MergeKeepsCore(s.users[g := q], g, account, nick, s.repo.claimed);
    forall j ensures Mirrors(t.users, t.repo.players, j) {
      assert Mirrors(s.users, s.repo.players, j);
    }
  }

  // ---- Join and Bind ----

  lemma NewRunnerKeeps(s: State, k: Key, p: Runner)
    requires Kept(s, {}) && k !in s.users
    requires p.identity == k && p.alias.None? && p.equipment == map[] && (p.guest <==> k.Guest?)
    ensures Kept(SetAt(s, k, p), {k})
  {
    var t := SetAt(s, k, p);
    forall j | j in t.users ensures SoundRunner(j, t.users[j], t.repo.claimed) {
      if j != k { assert SoundRunner(j, s.users[j], s.repo.claimed); }
    }
    assert forall slot :: !Holds(p, slot);
    assert forall j :: j != k ==> Mirrors(s.users, s.repo.players, j);
  }

  lemma ArriveKeeps(s: State, k: Key, nick: Name, account: Option<Name>, now: Time)
    requires Kept(s, {}) && k == JoinKey(nick, account)
    ensures Kept(Arrive(s, k, nick, account, now), {k})
    ensures Arrive(s, k, nick, account, now).world == s.world
    ensures Arrive(s, k, nick, account, now).repo == s.repo
  {
    assert {} + {k} == {k};
    if k !in s.users {
      NewRunnerKeeps(s, k, NewRunner(k, nick, account, now, s.rules));
    } else if s.users[k].connected {
      AdvanceKeeps(s, k, now, {});
    } else {
      SetKeeps(s, k, Resume(s, k, now).users[k], {});
    }
  }

  /** Linking a runner that has arrived. */
  lemma LinkKeeps(s: State, k: Key, nick: Name, account: Option<Name>, now: Time)
    requires Kept(s, {k}) && k in s.users && k == JoinKey(nick, account)
    ensures Kept(SaveAt(SetAt(s, k, Linked(s.users[k], nick, account, now)), k), {})
  {
    assert SoundRunner(k, s.users[k], s.repo.claimed);
    SetKeeps(s, k, Linked(s.users[k], nick, account, now), {k});
    assert {k} + {k} == {k} && {k} - {k} == {};
    SaveKeeps(SetAt(s, k, Linked(s.users[k], nick, account, now)), k, {k});
  }

  lemma EnterKeeps(s: State, k: Key, nick: Name, account: Option<Name>, now: Time)
    requires Kept(s, {}) && k == JoinKey(nick, account)
    ensures var t := Enter(s, k, nick, account, now);
            Kept(t, {}) && t.world == s.world && t.repo.world == s.repo.world
  {
    ArriveKeeps(s, k, nick, account, now);
    LinkKeeps(Arrive(s, k, nick, account, now), k, nick, account, now);
  }

  /** Join keeps runners and store together whatever was saved of the world before, and saves what it rekeys. */
  lemma JoinKeepsRunners(s: State, nick: Name, account: Option<Name>, now: Time, order: seq<Key>)
    requires Kept(s, {})
    ensures Kept(Join(s, nick, account, now, order), {})
    ensures WorldSaved(s) ==> WorldSaved(Join(s, nick, account, now, order))
  {
    var k := JoinKey(nick, account);
    var g := JoinFrom(s, nick, account, order);
    if g.Some? {
      MigrateKeeps(s, g.value, account.value, nick, now);
      MigrateShape(s, g.value, account.value, nick, now);
      EnterKeeps(Migrate(s, g.value, account.value, nick, now), k, nick, account, now);
      if !Rekeys(s.world.contract, g.value, k) { RekeyIdle(s.world.contract, g.value, k); }
    } else {
      EnterKeeps(s, k, nick, account, now);
    }
  }

  lemma JoinKeeps(s: State, nick: Name, account: Option<Name>, now: Time, order: seq<Key>)
    requires Inv(s)
    ensures Inv(Join(s, nick, account, now, order))
  {
    JoinKeepsRunners(s, nick, account, now, order);
  }

  lemma SwitchOffKeeps(s: State, k: Key, now: Time)
    requires Kept(s, {}) && k in s.users
    ensures Kept(SwitchOff(s, k, now), {})
    ensures SwitchOff(s, k, now).world.(contract := None) == s.world.(contract := None)
    ensures SwitchOff(s, k, now).repo.world == s.repo.world
    ensures !Breaks(s.world.contract, k) ==> SwitchOff(s, k, now).world == s.world
  {
    ChangeKeeps(s, k, now, Advance(s.users[k], now, s.rules).(connected := false, lastSeenAt := now));
  }

  lemma BindKeeps(s: State, nick: Name, account: Name, now: Time, order: seq<Key>, joinOrder: seq<Key>)
    requires Inv(s)
    ensures Inv(Bind(s, nick, account, now, order, joinOrder))
  {
    var old_ := SwitchedFrom(s, nick, account, order);
    if account.fold != "" {
      if old_.Some? {
        SwitchOffKeeps(s, old_.value, now);
        var s1 := SwitchOff(s, old_.value, now);
        JoinKeepsRunners(s1, nick, Some(account), now, joinOrder);
      } else {
        JoinKeeps(s, nick, Some(account), now, joinOrder);
      }
    }
  }

  // ---- Commands ----

  lemma TouchKeeps(s: State, k: Key, now: Time, change: Runner -> Runner)
    requires Inv(s) && k in s.users
    requires Carries(Advance(s.users[k], now, s.rules), change(Advance(s.users[k], now, s.rules)))
    ensures Inv(Touch(s, k, now, change))
  {
    ChangeKeeps(s, k, now, change(Advance(s.users[k], now, s.rules)));
  }

  /** A new alias changes neither gear nor identity. */
  lemma AliasedSound(k: Key, p: Runner, q: Runner, claimed: Registry)
    requires SoundRunner(k, p, claimed) && q == p.(alias := q.alias, lastSeenAt := q.lastSeenAt)
    ensures SoundRunner(k, q, claimed)
  {
    assert forall slot :: SoundArtifact(p, slot, claimed) ==> SoundArtifact(q, slot, claimed);
  }

  /** An alias nobody has or answers to keeps aliases distinct. */
  lemma AliasedCore(users: map<Key, Runner>, k: Key, q: Runner, claimed: Registry)
    requires Core(users, claimed) && k in users && q == users[k].(alias := q.alias, lastSeenAt := q.lastSeenAt)
    requires q.alias.Some? ==> !AliasTaken(users, k, q.alias.value)
    ensures Core(users[k := q], claimed)
  {
    var after := users[k := q];
    forall j | j in after ensures SoundRunner(j, after[j], claimed) {
      assert SoundRunner(j, users[j], claimed);
      if j == k { AliasedSound(k, users[k], q, claimed); }
    }
    assert forall j, slot :: j in after && Holds(after[j], slot) ==> Holds(users[j], slot);
  }

  lemma AliasKeeps(s: State, k: Key, alias: Option<Name>, now: Time)
    requires Inv(s) && k in s.users && (alias.Some? ==> !AliasTaken(s.users, k, alias.value))
    ensures Inv(Touch(s, k, now, (p: Runner) => p.(alias := alias, lastSeenAt := now)))
  {
    hide Advance, LevelMsgs, Queue, Stored, Core;
    var s1 := AdvanceAt(s, k, now);
    AdvanceKeeps(s, k, now, {});
    AdvanceFrame(s.users[k], now, s.rules);
    AliasedCore(s1.users, k, s1.users[k].(alias := alias, lastSeenAt := now), s.repo.claimed);
    assert forall j :: j != k ==> Mirrors(s1.users, s1.repo.players, j);
  }

  lemma SetAliasKeeps(s: State, identity: Option<Key>, nick: Name, alias: Option<Name>, now: Time, order: seq<Key>)
    requires Inv(s)
    ensures Inv(SetAlias(s, identity, nick, alias, now, order).0)
  {
    var hit := Find(s.users, identity, nick, order);
    if SetAlias(s, identity, nick, alias, now, order).1 {
      AliasKeeps(s, hit.value, alias, now);
    }
  }

  lemma SetStanceKeeps(s: State, identity: Option<Key>, nick: Name, stance: Stance, now: Time, order: seq<Key>)
    requires Inv(s)
    ensures Inv(SetStance(s, identity, nick, stance, now, order).0)
  {
    var hit := Find(s.users, identity, nick, order);
    if hit.Some? {
      TouchKeeps(s, hit.value, now, (p: Runner) => p.(stance := stance, lastSeenAt := now));
    }
  }

  lemma SetFactionKeeps(s: State, identity: Option<Key>, nick: Name, faction: Faction, now: Time, order: seq<Key>)
    requires Inv(s)
    ensures Inv(SetFaction(s, identity, nick, faction, now, order).0)
  {
    var hit := Find(s.users, identity, nick, order);
    if SetFaction(s, identity, nick, faction, now, order).1 {
      var open := SwapOpen(s.world, now);
      TouchKeeps(s, hit.value, now, (p: Runner) =>
        p.(faction := faction, lastFactionSwapAt := if open then now else p.lastFactionSwapAt, lastSeenAt := now));
    }
  }

  lemma ActivityKeeps(s: State, identity: Option<Key>, nick: Name, channel: Name, kind: Kind, length: int, now: Time,
                      order: seq<Key>)
    requires Inv(s)
    ensures Inv(Activity(s, identity, nick, channel, kind, length, now, order))
  {
    var hit := Find(s.users, identity, nick, order);
    if hit.Some? {
      var rules, world := s.rules, s.world;
      TouchKeeps(s, hit.value, now, (p: Runner) => Spoken(p, world, kind, length, now, rules));
    }
  }

  lemma RefreshKeeps(s: State, k: Key, now: Time)
    requires Inv(s) && k in s.users
    ensures Inv(SaveAt(AdvanceAt(s, k, now), k))
  {
    AdvanceKeeps(s, k, now, {});
    assert {} + {k} == {k} && {k} - {k} == {};
    SaveKeeps(AdvanceAt(s, k, now), k, {k});
  }

  lemma StatusKeeps(s: State, identity: Option<Key>, nick: Name, now: Time, order: seq<Key>)
    requires Inv(s)
    ensures Inv(Status(s, identity, nick, now, order))
  {
    var hit := Find(s.users, identity, nick, order);
    if hit.Some? { RefreshKeeps(s, hit.value, now); }
  }

  lemma {:induction false} RefreshAllKeeps(s: State, order: seq<Key>, now: Time)
    requires Inv(s)
    ensures Inv(RefreshAll(s, order, now))
  {
    if order != [] {
      RefreshAllKeeps(s, order[..|order| - 1], now);
      var s1, k := RefreshAll(s, order[..|order| - 1], now), order[|order| - 1];
      if k in s1.users { RefreshKeeps(s1, k, now); }
    }
  }

  lemma ClaimAtKeeps(s: State, k: Key, now: Time)
    requires Inv(s) && k in s.users
    ensures Inv(ClaimAt(s, k, now))
  {
    ChangeKeeps(s, k, now, Shard(Advance(s.users[k], now, s.rules), s.rules));
  }

  lemma ClaimDeadDropKeeps(s: State, identity: Option<Key>, nick: Name, channel: Name, text: string, now: Time,
                           order: seq<Key>)
    requires Inv(s)
    ensures Inv(ClaimDeadDrop(s, identity, nick, channel, text, now, order))
  {
    var hit := ClaimHit(s, identity, nick, channel, text, now, order);
    if hit.Some? { ClaimAtKeeps(s, hit.value, now); }
  }

  lemma ForcePirateKeeps(s: State, now: Time)
    requires Inv(s)
    ensures Inv(ForcePirate(s, now))
  {
  }

  // ---- Leaving and renaming ----

  lemma DisconnectAtKeeps(s: State, k: Key, kind: Kind, now: Time)
    requires Inv(s) && k in s.users
    ensures Inv(DisconnectAt(s, k, kind, now))
  {
    ChangeKeeps(s, k, now, Unlinked(Advance(s.users[k], now, s.rules), kind, now, s.rules));
  }

  lemma DisconnectKeeps(s: State, nick: Name, kind: Kind, now: Time, order: seq<Key>)
    requires Inv(s)
    ensures Inv(Disconnect(s, nick, kind, now, order))
  {
    var hit := Find(s.users, None, nick, order);
    if hit.Some? { DisconnectAtKeeps(s, hit.value, kind, now); }
  }

  lemma PauseAtKeeps(s: State, k: Key, now: Time)
    requires Inv(s)
    ensures Inv(PauseAt(s, k, now))
  {
    if k in s.users && s.users[k].connected {
      ChangeKeeps(s, k, now, Advance(s.users[k], now, s.rules).(connected := false, lastProgressAt := now,
                                                                lastHeatAt := now));
    }
  }

  lemma {:induction false} PauseAllKeeps(s: State, order: seq<Key>, now: Time)
    requires Inv(s)
    ensures Inv(PauseAll(s, order, now))
  {
    if order != [] {
      PauseAllKeeps(s, order[..|order| - 1], now);
      PauseAtKeeps(PauseAll(s, order[..|order| - 1], now), order[|order| - 1], now);
    }
  }

  lemma DisconnectAllKeeps(s: State, now: Time, order: seq<Key>)
    requires Inv(s)
    ensures Inv(DisconnectAll(s, now, order))
  {
    PauseAllKeeps(s, order, now);
  }

  lemma DropAtKeeps(s: State, k: Key, now: Time)
    requires Kept(s, {}) && k in s.users
    ensures Kept(DropAt(s, k, now), {})
    ensures DropAt(s, k, now).repo.world == s.repo.world
    ensures DropAt(s, k, now).world.(contract := None) == s.world.(contract := None)
  {
    ChangeKeeps(s, k, now, Advance(s.users[k], now, s.rules).(
      connected := false, lastSeenAt := now, streakSince := 0, streakDays := 0));
  }

  lemma {:induction false} ReconcileAllKeeps(s: State, order: seq<Key>, present: set<Name>, grace: int, now: Time)
    requires Kept(s, {})
    ensures var t := ReconcileAll(s, order, present, grace, now);
            && Kept(t, {}) && t.repo.world == s.repo.world && t.world.(contract := None) == s.world.(contract := None)
  {
    if order != [] {
      ReconcileAllKeeps(s, order[..|order| - 1], present, grace, now);
      var s1, k := ReconcileAll(s, order[..|order| - 1], present, grace, now), order[|order| - 1];
      if k in s1.users {
        DropAtKeeps(s1.(missing := s1.missing - {k}), k, now);
      }
    }
  }

  lemma ReconcileKeeps(s: State, present: set<Name>, grace: int, now: Time, order: seq<Key>)
    requires Inv(s)
    ensures Inv(Reconcile(s, present, grace, now, order))
  {
    ReconcileAllKeeps(s, order, present, grace, now);
    var s1 := ReconcileAll(s, order, present, grace, now);
    if s1.world.contract == s.world.contract {
      assert s1.world == s.world;
    }
  }

  /** A runner may move to a guest key nobody has. */
  lemma MoveKeeps(s: State, k: Key, to: Key)
    requires Kept(s, {k}) && k in s.users && s.users[k].guest && to.Guest? && to !in s.users && k != to
    ensures Kept(SaveAt(MoveRunner(s, k, to), to), {})
  {
    var t := MoveRunner(s, k, to);
    var u := SaveAt(t, to);
    assert SoundRunner(k, s.users[k], s.repo.claimed);
    forall j | j in t.users ensures SoundRunner(j, t.users[j], t.repo.claimed) {
      if j == to {
        assert forall slot ::
            SoundArtifact(s.users[k], slot, s.repo.claimed) ==> SoundArtifact(t.users[to], slot, s.repo.claimed);
      } else {
        assert SoundRunner(j, s.users[j], s.repo.claimed);
      }
    }
    assert OneHolder(t.users) by {
      forall i, j, slot | i in t.users && j in t.users && Holds(t.users[i], slot) && Holds(t.users[j], slot)
        ensures i == j
      {
        var i0, j0 := if i == to then k else i, if j == to then k else j;
        assert Holds(s.users[i0], slot) && Holds(s.users[j0], slot);
      }
    }
    assert AliasesDistinct(t.users);
    forall j ensures Mirrors(u.users, u.repo.players, j) {
      if j != k && j != to { assert Mirrors(s.users, s.repo.players, j); }
    }
  }

  lemma RenameAtKeeps(s: State, k: Key, newNick: Name, now: Time)
    requires Inv(s) && k in s.users
    ensures Inv(RenameAt(s, k, newNick, now))
  {
    var to := GuestKey(newNick);
    var s1 := AdvanceAt(s, k, now);
    var q := Renamed(s1.users[k], newNick, s.rules);
    AdvanceFrame(s.users[k], now, s.rules);
    if Moves(s, k, newNick) {
      AdvanceKeeps(s, k, now, {});
      SetKeeps(s1, k, q, {} + {k});
      assert {} + {k} + {k} == {k};
      MoveKeeps(SetAt(s1, k, q), k, to);
      if !Rekeys(s.world.contract, k, to) { RekeyIdle(s.world.contract, k, to); }
    } else {
      ChangeKeeps(s, k, now, q);
    }
  }

  lemma RenameKeeps(s: State, oldNick: Name, newNick: Name, now: Time, order: seq<Key>)
    requires Inv(s)
    ensures Inv(Rename(s, oldNick, newNick, now, order))
  {
    var hit := Find(s.users, None, oldNick, order);
    if hit.Some? { RenameAtKeeps(s, hit.value, newNick, now); }
  }

  /** A rename touches one runner, and never the record of another, whatever name it takes. */
  lemma RenameOverwritesNobody(s: State, oldNick: Name, newNick: Name, now: Time, order: seq<Key>, k: Key)
    requires Inv(s) && k in s.users && Find(s.users, None, oldNick, order) != Some(k)
    ensures var t := Rename(s, oldNick, newNick, now, order);
            && k in t.users && t.users[k] == s.users[k]
            && k in t.repo.players && t.repo.players[k] == s.repo.players[k]
  {
    hide Advance, LevelMsgs, Queue, Renamed, Stored, Find;
    var hit := Find(s.users, None, oldNick, order);
    assert Mirrors(s.users, s.repo.players, k);
    if hit.Some? && s.users[hit.value].connected {
      var t := RenameAt(s, hit.value, newNick, now);
      assert Moves(s, hit.value, newNick) ==> GuestKey(newNick) != k;
    }
  }
}
