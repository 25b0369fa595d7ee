/** What the operations leave alone: other runners' factions, levels, the world and the roster watch. */
module Frames {
  import opened Grid
  import opened Progression
  import opened StoreRows
  import opened Machine
  import opened Invariants
  import opened Operations
  import opened Economy
  import opened Ticks
  import opened Runs
  import Roster
  import Restarts

  /** The same runner later on: no lower level, the same faction, no earlier respec. */
  predicate Grows(p: Runner, q: Runner) {
    q.level >= p.level && q.faction == p.faction && q.lastFactionSwapAt >= p.lastFactionSwapAt
  }

  /** Everybody who is still there has grown, and no account runner is gone. */
  ghost predicate Lineage(s: State, t: State) {
    && t.rules == s.rules
    && (forall k :: k in s.users && k in t.users ==> Grows(s.users[k], t.users[k]))
    && (forall k :: k in s.users && k !in t.users ==> k.Guest?)
  }

  /** The world apart from its contract. */
  function Besides(w: World): World { w.(contract := None) }

  ghost predicate SameBesides(s: State, t: State) {
    Besides(t.world) == Besides(s.world) && t.missing == s.missing
  }

  lemma AdvanceGrows(p: Runner, now: Time, r: Tuning)
    ensures Grows(p, Advance(p, now, r))
  {
    AdvanceFrame(p, now, r);
  }

  /** Advancing, changing and saving one runner. */
  lemma ChangeLineage(s: State, k: Key, now: Time, q: Runner)
    requires k in s.users && Grows(Advance(s.users[k], now, s.rules), q)
    ensures var t := SaveAt(SetAt(AdvanceAt(s, k, now), k, q), k);
            Lineage(s, t) && SameBesides(s, t) && t.world == s.world
  {
    AdvanceGrows(s.users[k], now, s.rules);
  }

  lemma MigrateLineage(s: State, g: Key, account: Name, nick: Name, now: Time)
    requires Kept(s, {}) && g in s.users && s.users[g].guest
    ensures var t := Migrate(s, g, account, nick, now);
            && Lineage(s, t) && SameBesides(s, t) && g.Guest?
            && t.users.Keys == s.users.Keys - {g} + {AccountKey(account)}
  {
    MigrateShape(s, g, account, nick, now);
    assert SoundRunner(g, s.users[g], s.repo.claimed);
  }

  lemma EnterLineage(s: State, k: Key, nick: Name, account: Option<Name>, now: Time)
    ensures var t := Enter(s, k, nick, account, now);
            Lineage(s, t) && t.world == s.world && t.missing == s.missing && t.users.Keys == s.users.Keys + {k}
  {
    if k in s.users { AdvanceGrows(s.users[k], now, s.rules); }
  }

  lemma LineageThrough(s: State, t: State, u: State)
    requires Lineage(s, t) && Lineage(t, u)
    requires forall k :: k in s.users && k in u.users ==> k in t.users
    ensures Lineage(s, u)
  {
    forall k | k in s.users && k in u.users ensures Grows(s.users[k], u.users[k]) {
      assert Grows(s.users[k], t.users[k]) && Grows(t.users[k], u.users[k]);
    }
  }

  lemma JoinLineage(s: State, nick: Name, account: Option<Name>, now: Time, order: seq<Key>)
    requires Kept(s, {})
    ensures var t := Join(s, nick, account, now, order);
            Lineage(s, t) && SameBesides(s, t)
  {
    var k := JoinKey(nick, account);
    var g := JoinFrom(s, nick, account, order);
    if g.Some? {
      var s1 := Migrate(s, g.value, account.value, nick, now);
      MigrateLineage(s, g.value, account.value, nick, now);
      EnterLineage(s1, k, nick, account, now);
      LineageThrough(s, s1, Enter(s1, k, nick, account, now));
    } else {
      EnterLineage(s, k, nick, account, now);
    }
  }

  lemma SwitchOffLineage(s: State, k: Key, now: Time)
    requires k in s.users
    ensures var t := SwitchOff(s, k, now);
            Lineage(s, t) && SameBesides(s, t) && t.users.Keys == s.users.Keys
  {
    AdvanceGrows(s.users[k], now, s.rules);
  }

  lemma BindLineage(s: State, nick: Name, account: Name, now: Time, order: seq<Key>, joinOrder: seq<Key>)
    requires Inv(s)
    ensures var t := Bind(s, nick, account, now, order, joinOrder);
            Lineage(s, t) && SameBesides(s, t)
  {
    var old_ := SwitchedFrom(s, nick, account, order);
    if account.fold != "" {
      if old_.Some? {
        var s1 := SwitchOff(s, old_.value, now);
        SwitchOffKeeps(s, old_.value, now);
        SwitchOffLineage(s, old_.value, now);
        JoinLineage(s1, nick, Some(account), now, joinOrder);
        LineageThrough(s, s1, Join(s1, nick, Some(account), now, joinOrder));
      } else {
        JoinLineage(s, nick, Some(account), now, joinOrder);
      }
    }
  }

  lemma TouchLineage(s: State, k: Key, now: Time, change: Runner -> Runner)
    requires k in s.users && Grows(Advance(s.users[k], now, s.rules), change(Advance(s.users[k], now, s.rules)))
    ensures var t := Touch(s, k, now, change);
            Lineage(s, t) && SameBesides(s, t) && t.world == s.world
  {
    ChangeLineage(s, k, now, change(Advance(s.users[k], now, s.rules)));
  }

  lemma SetAliasLineage(s: State, identity: Option<Key>, nick: Name, alias: Option<Name>, now: Time, order: seq<Key>)
    ensures var t := SetAlias(s, identity, nick, alias, now, order).0;
            Lineage(s, t) && SameBesides(s, t) && t.world == s.world
  {
    var hit := Find(s.users, identity, nick, order);
    if hit.Some? {
      TouchLineage(s, hit.value, now, (p: Runner) => p.(alias := alias, lastSeenAt := now));
    }
  }

  lemma SetStanceLineage(s: State, identity: Option<Key>, nick: Name, stance: Stance, now: Time, order: seq<Key>)
    ensures var t := SetStance(s, identity, nick, stance, now, order).0;
            Lineage(s, t) && SameBesides(s, t) && t.world == s.world
  {
    var hit := Find(s.users, identity, nick, order);
    if hit.Some? {
      TouchLineage(s, hit.value, now, (p: Runner) => p.(stance := stance, lastSeenAt := now));
    }
  }

  lemma ActivityLineage(s: State, identity: Option<Key>, nick: Name, channel: Name, kind: Kind, length: int, now: Time,
                        order: seq<Key>)
    ensures var t := Activity(s, identity, nick, channel, kind, length, now, order);
            Lineage(s, t) && SameBesides(s, t) && t.world == s.world
  {
    var hit := Find(s.users, identity, nick, order);
    if hit.Some? {
      var rules, world := s.rules, s.world;
      TouchLineage(s, hit.value, now, (p: Runner) => Spoken(p, world, kind, length, now, rules));
    }
  }

  lemma RefreshLineage(s: State, k: Key, now: Time)
    requires k in s.users
    ensures var t := SaveAt(AdvanceAt(s, k, now), k);
            Lineage(s, t) && SameBesides(s, t) && t.world == s.world && t.users.Keys == s.users.Keys
  {
    AdvanceGrows(s.users[k], now, s.rules);
  }

  lemma {:induction false} RefreshAllLineage(s: State, order: seq<Key>, now: Time)
    ensures var t := RefreshAll(s, order, now);
            Lineage(s, t) && SameBesides(s, t) && t.world == s.world && t.users.Keys == s.users.Keys
  {
    if order != [] {
      RefreshAllLineage(s, order[..|order| - 1], now);
      var s1, k := RefreshAll(s, order[..|order| - 1], now), order[|order| - 1];
      if k in s1.users {
        RefreshLineage(s1, k, now);
        LineageThrough(s, s1, RefreshAll(s, order, now));
      }
    }
  }

  lemma ClaimLineage(s: State, k: Key, now: Time)
    requires k in s.users
    ensures var t := ClaimAt(s, k, now);
            && Lineage(s, t) && t.missing == s.missing
            && t.world == s.world.(deadDrop := None, recent := t.world.recent)
  {
    AdvanceGrows(s.users[k], now, s.rules);
  }

  lemma DisconnectLineage(s: State, k: Key, kind: Kind, now: Time)
    requires k in s.users
    ensures var t := DisconnectAt(s, k, kind, now);
            Lineage(s, t) && SameBesides(s, t)
  {
    AdvanceGrows(s.users[k], now, s.rules);
  }

  lemma {:induction false} PauseAllLineage(s: State, order: seq<Key>, now: Time)
    ensures var t := PauseAll(s, order, now);
            Lineage(s, t) && t.world == s.world && t.users.Keys == s.users.Keys
  {
    if order != [] {
      PauseAllLineage(s, order[..|order| - 1], now);
      var s1, k := PauseAll(s, order[..|order| - 1], now), order[|order| - 1];
      if k in s1.users {
        AdvanceGrows(s1.users[k], now, s1.rules);
        LineageThrough(s, s1, PauseAt(s1, k, now));
      }
    }
  }

  lemma ReconcileLineage(s: State, present: set<Name>, grace: int, now: Time, order: seq<Key>)
    requires Inv(s) && Enumerates(order, s.users.Keys)
    ensures var t := Reconcile(s, present, grace, now, order);
            Lineage(s, t) && Besides(t.world) == Besides(s.world)
  {
    var t := Reconcile(s, present, grace, now, order);
    forall k | k in s.users ensures k in t.users && Grows(s.users[k], t.users[k]) {
      Roster.ReconcileExact(s, present, grace, now, order, k);
      AdvanceGrows(s.users[k], now, s.rules);
    }
    Roster.ReconcileExact(s, present, grace, now, order, Guest(""));
    ReconcileAllKeeps(s, order, present, grace, now);
  }

  lemma RenameLineage(s: State, k: Key, newNick: Name, now: Time)
    requires Inv(s) && k in s.users
    ensures var t := RenameAt(s, k, newNick, now);
            Lineage(s, t) && SameBesides(s, t)
  {
    hide Advance, LevelMsgs, Queue, PenaltySeconds;
    AdvanceGrows(s.users[k], now, s.rules);
    assert SoundRunner(k, s.users[k], s.repo.claimed);
  }

  lemma TickLineage(s: State, now: Time, ord: Orders, champion: Faction)
    requires Inv(s)
    ensures var t := Tick(s, now, ord, champion);
            Lineage(s, t) && t.missing == s.missing
  {
    TickStepsKeep(s, now, ord, champion);
    var t := TickSteps(s, now, ord, champion).s;
    forall k | k in s.users && k in t.users ensures Grows(s.users[k], t.users[k]) {
      assert SameProfile(s.users[k], t.users[k]);
    }
    forall k | k in s.users && k !in t.users ensures k.Guest? {
      assert SoundRunner(k, s.users[k], s.repo.claimed) && Pruned(s.users[k], now, s.rules);
    }
  }

  lemma RestartLineage(s: State, now: Time, rng: Rng, order: seq<Key>)
    requires Inv(s) && Enumerates(order, s.repo.players.Keys)
    ensures Lineage(s, Restart(s.rules, s.repo, now, rng, order))
  {
    Restarts.RestartKeeps(s, now, rng, order);
    var t := Restart(s.rules, s.repo, now, rng, order);
    forall k | k in s.users ensures Grows(s.users[k], t.users[k]) {
      assert Restarts.Reborn(Stored(s.users[k]), t.users[k]);
    }
  }

  lemma StatusLineage(s: State, identity: Option<Key>, nick: Name, now: Time, order: seq<Key>)
    ensures var t := Status(s, identity, nick, now, order);
            Lineage(s, t) && SameBesides(s, t)
  {
    var hit := Find(s.users, identity, nick, order);
    if hit.Some? { RefreshLineage(s, hit.value, now); }
  }

  lemma LeaveLineage(s: State, nick: Name, kind: Kind, now: Time, order: seq<Key>)
    ensures var t := Disconnect(s, nick, kind, now, order);
            Lineage(s, t) && SameBesides(s, t)
  {
    var hit := Find(s.users, None, nick, order);
    if hit.Some? { DisconnectLineage(s, hit.value, kind, now); }
  }

  lemma MoveLineage(s: State, nick: Name, newNick: Name, now: Time, order: seq<Key>)
    requires Inv(s)
    ensures var t := Rename(s, nick, newNick, now, order);
            Lineage(s, t) && SameBesides(s, t)
  {
    var hit := Find(s.users, None, nick, order);
    if hit.Some? { RenameLineage(s, hit.value, newNick, now); }
  }

  lemma DropLineage(s: State, identity: Option<Key>, nick: Name, channel: Name, text: string, now: Time,
                    order: seq<Key>)
    ensures var t := ClaimDeadDrop(s, identity, nick, channel, text, now, order);
            && Lineage(s, t) && t.missing == s.missing
            && t.world == s.world.(deadDrop := t.world.deadDrop, recent := t.world.recent)
  {
    var hit := ClaimHit(s, identity, nick, channel, text, now, order);
    if hit.Some? { ClaimLineage(s, hit.value, now); }
  }

  lemma PirateLineage(s: State, now: Time)
    ensures var t := ForcePirate(s, now);
            && Lineage(s, t) && t.missing == s.missing
            && t.world == s.world.(pirateUntil := t.world.pirateUntil, deadDrop := t.world.deadDrop,
                                   recent := t.world.recent)
  {
  }

  /** Over one operation nobody loses a level, a faction changes only by command, account runners stay. */
  lemma OpLineage(s: State, op: Op)
    requires Inv(s) && Sensible(s, op) && !op.OpSetFaction?
    ensures Lineage(s, Apply(s, op))
  {
    match op
    case OpJoin(nick, account, now, order) => JoinLineage(s, nick, account, now, order);
    case OpBind(nick, to, now, order, joinOrder) => BindLineage(s, nick, to, now, order, joinOrder);
    case OpSetAlias(identity, nick, alias, now, order) => SetAliasLineage(s, identity, nick, alias, now, order);
    case OpSetStance(identity, nick, stance, now, order) => SetStanceLineage(s, identity, nick, stance, now, order);
    case OpActivity(identity, nick, channel, kind, length, now, order) =>
      ActivityLineage(s, identity, nick, channel, kind, length, now, order);
    case OpStatus(identity, nick, now, order) => StatusLineage(s, identity, nick, now, order);
    case OpDisconnect(nick, kind, now, order) => LeaveLineage(s, nick, kind, now, order);
    case OpDisconnectAll(now, order) => PauseAllLineage(s, order, now);
    case OpReconcile(present, grace, now, order) => ReconcileLineage(s, present, grace, now, order);
    case OpRename(nick, newNick, now, order) => MoveLineage(s, nick, newNick, now, order);
    case OpTop(now, order) => RefreshAllLineage(s, order, now);
    case OpClaimDeadDrop(identity, nick, channel, text, now, order) =>
      DropLineage(s, identity, nick, channel, text, now, order);
    case OpForcePirate(now) => PirateLineage(s, now);
    case OpTick(now, orders, champion) => TickLineage(s, now, orders, champion);
    case OpRestart(now, rng, order) => RestartLineage(s, now, rng, order);
  }

  /** The faction is taken; inside a crash window the time of it is kept. */
  predicate Respecced(p: Runner, q: Runner, faction: Faction, open: bool, now: Time) {
    && q.level >= p.level && q.faction == faction
    && q.lastFactionSwapAt == if open then now else p.lastFactionSwapAt
  }

  /** A faction command changes one runner, and only when it is accepted. */
  lemma SetFactionLineage(s: State, identity: Option<Key>, nick: Name, faction: Faction, now: Time, order: seq<Key>)
    requires Inv(s)
    ensures var (t, ok) := SetFaction(s, identity, nick, faction, now, order);
            var hit := Find(s.users, identity, nick, order);
            && (!ok ==> t == s)
            && (ok ==> hit.Some? && MaySwap(s.users[hit.value], s.world, faction, now))
            && t.world == s.world && t.missing == s.missing && t.rules == s.rules && t.users.Keys == s.users.Keys
            && (forall k :: k in s.users && (ok ==> k != hit.value) ==> Grows(s.users[k], t.users[k]))
            && (ok ==> Respecced(s.users[hit.value], t.users[hit.value], faction, SwapOpen(s.world, now), now))
  {
    hide Advance, LevelMsgs, Queue, Stored, Find;
    var hit := Find(s.users, identity, nick, order);
    if hit.Some? { AdvanceFrame(s.users[hit.value], now, s.rules); }
  }

  /** Which operations may change the roster watch. */
  predicate Watches(op: Op) { op.OpReconcile? || op.OpDisconnectAll? || op.OpRestart? }

  /** Which operations may change the world besides its contract. */
  predicate MovesWorld(op: Op) { op.OpTick? || op.OpForcePirate? || op.OpClaimDeadDrop? || op.OpRestart? }

  lemma OpFrame(s: State, op: Op)
    requires Inv(s) && Sensible(s, op)
    ensures !Watches(op) ==> Apply(s, op).missing == s.missing
    ensures !MovesWorld(op) ==> Besides(Apply(s, op).world) == Besides(s.world)
  {
    hide Join, Bind, SetAlias, SetStance, SetFaction, Activity, Status, Disconnect, Reconcile, Rename, RefreshAll,
      PauseAll, ClaimDeadDrop, Tick, Restart, Kept, WorldSaved;
    match op
    case OpJoin(nick, account, now, order) => JoinLineage(s, nick, account, now, order);
    case OpBind(nick, to, now, order, joinOrder) => BindLineage(s, nick, to, now, order, joinOrder);
    case OpSetAlias(identity, nick, alias, now, order) => SetAliasLineage(s, identity, nick, alias, now, order);
    case OpSetStance(identity, nick, stance, now, order) => SetStanceLineage(s, identity, nick, stance, now, order);
    case OpSetFaction(identity, nick, faction, now, order) => SetFactionLineage(s, identity, nick, faction, now, order);
    case OpActivity(identity, nick, channel, kind, length, now, order) =>
      ActivityLineage(s, identity, nick, channel, kind, length, now, order);
    case OpStatus(identity, nick, now, order) => StatusLineage(s, identity, nick, now, order);
    case OpDisconnect(nick, kind, now, order) => LeaveLineage(s, nick, kind, now, order);
    case OpDisconnectAll(now, order) => PauseAllLineage(s, order, now);
    case OpReconcile(present, grace, now, order) => ReconcileLineage(s, present, grace, now, order);
    case OpRename(nick, newNick, now, order) => MoveLineage(s, nick, newNick, now, order);
    case OpTop(now, order) => RefreshAllLineage(s, order, now);
    case OpClaimDeadDrop(identity, nick, channel, text, now, order) =>
      DropLineage(s, identity, nick, channel, text, now, order);
    case OpForcePirate(now) => PirateLineage(s, now);
    case OpTick(now, orders, champion) => TickLineage(s, now, orders, champion);
    case OpRestart(now, rng, order) =>
  }
}
