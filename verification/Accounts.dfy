/**
 The ledger over operations and whole runs: lifetime progress is what was earned connected, second by second,
 plus rewards minus penalties. Time offline and restarts credit nothing.
 */
module Accounts {
  import opened Grid
  import opened Progression
  import opened StoreRows
  import opened Machine
  import opened Invariants
  import opened Ledger
  import opened Runs
  import opened Paths
  import Operations
  import Restarts
  import Roster
  import Frames
  import Windows

  // ---- The account of one runner ----

  /** Linked time not credited yet. */
  function Carried(p: Runner, now: Time): int { if p.connected then now - p.lastProgressAt else 0 }

  /** What is left of a second once the whole ones are credited. */
  function Fraction(p: Runner, now: Time): int { Carried(p, now) - SECOND * Credit(p, now) }

  /** Time on the clock is credited, still carried or discarded; everything else earned is an award. */
  predicate Settles(p: Runner, q: Runner, r: Rules, now: Time, award: int, discarded: int) {
    SECOND * (Earned(q, r) - Earned(p, r) - award) + Carried(q, now) + discarded == Carried(p, now)
  }

  /** From `s` to `t` the runner at `k` went to `j` and its account balances. */
  ghost predicate Balanced(s: State, t: State, k: Key, j: Key, now: Time, award: int, discarded: int) {
    && k in s.users && j in t.users && t.rules == s.rules && Started(t.users[j], now)
    && Settles(s.users[k], t.users[j], s.rules, now, award, discarded)
  }

  lemma FractionFits(p: Runner, now: Time)
    requires Started(p, now)
    ensures 0 <= Fraction(p, now) < SECOND
  {
    if p.connected { CreditFits(p, now); }
  }

  lemma BooksSettle(p: Runner, q: Runner, r: Rules, now: Time, award: int)
    requires Books(p, q, r, now, award)
    ensures Settles(p, q, r, now, award, 0)
  {
    hide Earned;
  }

  /** The operation merges a guest's record with the one at `k`, on either side. */
  predicate Merges(s: State, op: Op, k: Key) {
    var m := Migration(s, op);
    m.Some? && (k == m.value.origin || k == m.value.target)
  }

  /** The operation takes the runner off the Grid, or links it and starts its clock anew. */
  predicate Cuts(s: State, op: Op, k: Key) {
    match op
    case OpJoin(nick, account, now, order) => k == JoinKey(nick, account)
    case OpBind(nick, to, now, order, joinOrder) =>
      to.fold != "" && (k == AccountKey(to) || SwitchedFrom(s, nick, to, order) == Some(k))
    case OpDisconnect(nick, kind, now, order) => Find(s.users, None, nick, order) == Some(k)
    case OpDisconnectAll(now, order) => true
    case OpReconcile(present, grace, now, order) => Roster.Expired(s, k, present, grace, now)
    case _ => false
  }

  /** Linked time the operation discards: a begun second where a link is cut, all that waits at a restart. */
  function DiscardOf(s: State, op: Op, k: Key): int
    requires k in s.users
  {
    if op.OpRestart? then Carried(s.users[k], op.now)
    else if Cuts(s, op, k) then Fraction(s.users[k], op.now)
    else 0
  }

  /** What the operation awards the runner, or charges it when negative. */
  function AwardOf(s: State, op: Op, k: Key): int
    requires k in s.users
  {
    var a := Advance(s.users[k], op.now, s.rules);
    match op
    case OpActivity(identity, nick, channel, kind, length, now, order) =>
      if EqualFold(channel, s.rules.gameChannel) && Find(s.users, identity, nick, order) == Some(k)
         && !Waived(s.world, kind, now)
      then -PenaltySeconds(a.level, kind, length, s.rules) else 0
    case OpDisconnect(nick, kind, now, order) =>
      if Find(s.users, None, nick, order) == Some(k) && s.users[k].connected
      then -PenaltySeconds(a.level, kind, 0, s.rules) else 0
    case OpRename(nick, newNick, now, order) =>
      if Find(s.users, None, nick, order) == Some(k) && s.users[k].connected
      then -PenaltySeconds(a.level, NickChange, 0, s.rules) else 0
    case OpClaimDeadDrop(identity, nick, channel, text, now, order) =>
      if ClaimHit(s, identity, nick, channel, text, now, order) == Some(k)
      then Max(60, LevelDuration(s.rules, a.level) / 10) else 0
    case OpTick(now, orders, champion) => TickAward(s, now, orders, champion, k)
    case _ => 0
  }

  // ---- From one change of one runner to the state ----

  lemma NotedBalances(s: State, t: State, k: Key, now: Time, award: int)
    requires Noted(s, t, k, now, award)
    ensures Balanced(s, t, k, k, now, award, 0)
  {
    hide Books, Settles;
    BooksSettle(s.users[k], t.users[k], s.rules, now, award);
  }

  lemma StillBalances(s: State, t: State, k: Key, now: Time)
    requires k in s.users && k in t.users && t.users[k] == s.users[k] && t.rules == s.rules && Started(s.users[k], now)
    ensures Balanced(s, t, k, k, now, 0, 0)
  {
  }

  /** A runner who was offline discards nothing. */
  lemma OfflineFraction(p: Runner, now: Time)
    requires !p.connected
    ensures Fraction(p, now) == 0
  {
  }

  /** One runner is advanced and awarded; everybody else stays as they were. */
  lemma OneNoted(s: State, t: State, hit: Key, k: Key, now: Time, award: int)
    requires hit in s.users && hit in t.users && t.users == s.users[hit := t.users[hit]] && t.rules == s.rules
    requires k in s.users && Started(s.users[k], now)
    requires Booked(Advance(s.users[hit], now, s.rules), t.users[hit], award)
    ensures Noted(s, t, k, now, if k == hit then award else 0)
  {
    hide Books, Advance, Booked;
    if k == hit {
      NotedTouched(s, t, k, now, award);
    } else {
      StillNoted(s, t, k, now);
    }
  }

  /** A runner advanced, awarded and taken offline. */
  predicate TakenOff(a: Runner, q: Runner, award: int) {
    !q.connected && q.level == a.level && q.progress == a.progress + award
  }

  lemma TakenOffSettles(p: Runner, q: Runner, now: Time, r: Tuning, award: int)
    requires Started(p, now) && TakenOff(Advance(p, now, r), q, award)
    ensures Settles(p, q, r, now, award, Fraction(p, now))
  {
    AdvanceEarns(p, now, r);
    hide Advance;
    assert Earned(q, r) == Earned(Advance(p, now, r), r) + award;
  }

  /** One runner is advanced, awarded and taken offline. */
  lemma OneLeaves(s: State, t: State, hit: Key, k: Key, now: Time, award: int)
    requires hit in s.users && hit in t.users && t.users == s.users[hit := t.users[hit]] && t.rules == s.rules
    requires k in s.users && Started(s.users[k], now)
    requires TakenOff(Advance(s.users[hit], now, s.rules), t.users[hit], award)
    ensures Balanced(s, t, k, k, now, if k == hit then award else 0, if k == hit then Fraction(s.users[k], now) else 0)
  {
    hide Advance, Settles, Fraction;
    if k == hit {
      TakenOffSettles(s.users[k], t.users[k], now, s.rules, award);
    } else {
      StillBalances(s, t, k, now);
    }
  }

  // ---- Operations ----

  /** A runner linking, or linking again: what it earned stands, and its clock starts now. */
  lemma LinkSettles(p: Runner, q: Runner, now: Time, r: Tuning)
    requires Started(p, now) && q.connected && q.lastProgressAt == now
    requires q.level == Advance(p, now, r).level && q.progress == Advance(p, now, r).progress
    ensures Settles(p, q, r, now, 0, Fraction(p, now))
  {
    AdvanceEarns(p, now, r);
    hide Advance;
  }

  lemma EnterBalances(s: State, j: Key, nick: Name, account: Option<Name>, now: Time, k: Key)
    requires k in s.users && Started(s.users[k], now) && now > 0
    ensures Balanced(s, Enter(s, j, nick, account, now), k, k, now, 0, if k == j then Fraction(s.users[k], now) else 0)
    ensures k != j ==> Enter(s, j, nick, account, now).users[k] == s.users[k]
  {
    hide Advance, LevelMsgs, Queue, Stagger, Stored, NewRunner, Settles, Fraction;
    var t := Enter(s, j, nick, account, now);
    if k == j {
      OfflineStays(s.users[k], now, s.rules);
      LinkSettles(s.users[k], t.users[k], now, s.rules);
    } else {
      StillBalances(s, t, k, now);
    }
  }

  lemma OfflineStays(p: Runner, now: Time, r: Tuning)
    ensures !p.connected ==> MeterOf(Advance(p, now, r)) == MeterOf(p)
  {
  }

  /** Nobody but the account's runner notices a migration. */
  lemma MigrateLeavesOthers(s: State, g: Key, account: Name, nick: Name, now: Time, k: Key)
    requires Kept(s, {}) && g in s.users && s.users[g].guest && k in s.users && k != g && k != AccountKey(account)
    ensures var t := Migrate(s, g, account, nick, now);
            k in t.users && t.users[k] == s.users[k] && t.rules == s.rules && g !in t.users
  {
    Operations.MigrateShape(s, g, account, nick, now);
    assert SoundRunner(g, s.users[g], s.repo.claimed);
    hide Migrated, Advance;
  }

  lemma MigratedAway(s: State, g: Key, account: Name, nick: Name, now: Time)
    requires Kept(s, {}) && g in s.users && s.users[g].guest
    ensures g !in Migrate(s, g, account, nick, now).users && Migrate(s, g, account, nick, now).rules == s.rules
    ensures g != AccountKey(account)
  {
    Operations.MigrateShape(s, g, account, nick, now);
    assert SoundRunner(g, s.users[g], s.repo.claimed);
    hide Migrated, Advance;
  }

  lemma JoinBalances(s: State, nick: Name, account: Option<Name>, now: Time, order: seq<Key>, k: Key)
    requires Kept(s, {}) && k in s.users && Started(s.users[k], now) && now > 0
    requires var g := JoinFrom(s, nick, account, order);
             g.Some? ==> k != JoinKey(nick, account) && k != g.value
    ensures var cut := k == JoinKey(nick, account);
            Balanced(s, Join(s, nick, account, now, order), k, k, now, 0, if cut then Fraction(s.users[k], now) else 0)
    ensures k != JoinKey(nick, account) ==> Join(s, nick, account, now, order).users[k] == s.users[k]
  {
    hide Migrate, Enter, Migratable, Started, Settles, Fraction;
    var j := JoinKey(nick, account);
    var g := JoinFrom(s, nick, account, order);
    if g.Some? {
      var s1 := Migrate(s, g.value, account.value, nick, now);
      MigrateLeavesOthers(s, g.value, account.value, nick, now, k);
      EnterBalances(s1, j, nick, account, now, k);
      StillBalances(s, Join(s, nick, account, now, order), k, now);
    } else {
      EnterBalances(s, j, nick, account, now, k);
    }
  }

  lemma EntersOnly(s: State, j: Key, nick: Name, account: Option<Name>, now: Time, k: Key)
    requires k in Enter(s, j, nick, account, now).users
    ensures k == j || k in s.users
    ensures Enter(s, j, nick, account, now).rules == s.rules
  {
    hide Advance, LevelMsgs, Queue, Stagger, Stored, NewRunner;
  }

  lemma SwitchOffBalances(s: State, hit: Key, now: Time, k: Key)
    requires hit in s.users && k in s.users && Started(s.users[k], now)
    ensures Balanced(s, SwitchOff(s, hit, now), k, k, now, 0, if k == hit then Fraction(s.users[k], now) else 0)
    ensures k != hit ==> SwitchOff(s, hit, now).users[k] == s.users[k]
    ensures SwitchOff(s, hit, now).users.Keys == s.users.Keys
  {
    hide Advance, LevelMsgs, Queue, Stored, Settles, Fraction;
    OneLeaves(s, SwitchOff(s, hit, now), hit, k, now, 0);
  }

  lemma BindBalances(s: State, nick: Name, account: Name, now: Time, order: seq<Key>, joinOrder: seq<Key>, k: Key)
    requires Inv(s) && k in s.users && Started(s.users[k], now) && now > 0
    requires !Merges(s, OpBind(nick, account, now, order, joinOrder), k)
    ensures var op := OpBind(nick, account, now, order, joinOrder);
            Balanced(s, Bind(s, nick, account, now, order, joinOrder), k, k, now, 0, DiscardOf(s, op, k))
  {
    hide SwitchOff, Join, Migratable, FirstConnected, Started, Settles, Fraction;
    if account.fold == "" {
      StillBalances(s, s, k, now);
    } else {
      var old_ := SwitchedFrom(s, nick, account, order);
      if old_.Some? {
        SwitchOffBalances(s, old_.value, now, k);
        Operations.SwitchOffKeeps(s, old_.value, now);
      } else {
        StillBalances(s, s, k, now);
      }
      var s1 := Unbound(s, nick, account, now, order);
      var t := Join(s1, nick, Some(account), now, joinOrder);
      JoinBalances(s1, nick, Some(account), now, joinOrder, k);
      SameBalance(s, s1, t, Bind(s, nick, account, now, order, joinOrder), k, now,
                  DiscardOf(s, OpBind(nick, account, now, order, joinOrder), k));
    }
  }

  /** Of two changes to a runner at least one is none. */
  lemma SameBalance(s: State, s1: State, t: State, u: State, k: Key, now: Time, discarded: int)
    requires k in s.users && k in s1.users && k in t.users && u.users == t.users && u.rules == t.rules
    requires (Balanced(s, s1, k, k, now, 0, discarded) && t.users[k] == s1.users[k] && t.rules == s1.rules)
          || (s1.users[k] == s.users[k] && s1.rules == s.rules && Balanced(s1, t, k, k, now, 0, discarded))
    ensures Balanced(s, u, k, k, now, 0, discarded)
  {
    hide Settles;
  }

  lemma CommandNoted(s: State, op: Op, k: Key)
    requires op.OpSetAlias? || op.OpSetStance? || op.OpSetFaction? || op.OpStatus?
    requires k in s.users && Started(s.users[k], op.now)
    ensures Noted(s, Apply(s, op), k, op.now, 0)
  {
    hide Books, Advance, Booked, Find, LevelMsgs, Queue, Stored, AliasTaken, ValidAlias, MaySwap, SwapOpen, Started;
    var t, hit := Apply(s, op), Find(s.users, op.identity, op.nick, op.order);
    if t.users == s.users {
      StillNoted(s, t, k, op.now);
    } else {
      SameMeter(Advance(s.users[hit.value], op.now, s.rules), t.users[hit.value]);
      OneNoted(s, t, hit.value, k, op.now, 0);
    }
  }

  lemma SameMeter(a: Runner, q: Runner)
    requires q == a.(alias := q.alias, stance := q.stance, faction := q.faction,
                     lastFactionSwapAt := q.lastFactionSwapAt, lastSeenAt := q.lastSeenAt)
    ensures Booked(a, q, 0)
  {
  }

  lemma ActivityNoted(s: State, op: Op, k: Key)
    requires op.OpActivity? && k in s.users && Started(s.users[k], op.now)
    ensures Noted(s, Apply(s, op), k, op.now, AwardOf(s, op, k))
  {
    hide Books, Advance, Find, LevelMsgs, Queue, Stored, PenaltySeconds, Waived;
    var t, hit := Apply(s, op), Find(s.users, op.identity, op.nick, op.order);
    if EqualFold(op.channel, s.rules.gameChannel) && hit.Some? {
      var a := Advance(s.users[hit.value], op.now, s.rules);
      OneNoted(s, t, hit.value, k, op.now,
               if Waived(s.world, op.kind, op.now) then 0 else -PenaltySeconds(a.level, op.kind, op.length, s.rules));
    } else {
      StillNoted(s, t, k, op.now);
    }
  }

  lemma ClaimNoted(s: State, op: Op, k: Key)
    requires op.OpClaimDeadDrop? && k in s.users && Started(s.users[k], op.now)
    ensures Noted(s, Apply(s, op), k, op.now, AwardOf(s, op, k))
  {
    hide Books, Advance, ClaimHit, LevelMsgs, Queue, Stored, LevelDuration, Max, LastOf, DisplayName;
    var t, hit := Apply(s, op), ClaimHit(s, op.identity, op.nick, op.channel, op.text, op.now, op.order);
    if hit.Some? {
      var a := Advance(s.users[hit.value], op.now, s.rules);
      OneNoted(s, t, hit.value, k, op.now, Max(60, LevelDuration(s.rules, a.level) / 10));
    } else {
      StillNoted(s, t, k, op.now);
    }
  }

  lemma DisconnectBalances(s: State, op: Op, k: Key)
    requires op.OpDisconnect? && k in s.users && Started(s.users[k], op.now)
    ensures Balanced(s, Apply(s, op), k, k, op.now, AwardOf(s, op, k), DiscardOf(s, op, k))
  {
    hide Advance, Find, LevelMsgs, Queue, Stored, PenaltySeconds, DisplayName, ClampHeat, DisconnectHeat, Settles,
      Started, MarkFailed, Breaks, Fraction;
    var t, hit := Apply(s, op), Find(s.users, None, op.nick, op.order);
    if hit.Some? && s.users[hit.value].connected {
      var a := Advance(s.users[hit.value], op.now, s.rules);
      OneLeaves(s, t, hit.value, k, op.now, -PenaltySeconds(a.level, op.kind, 0, s.rules));
    } else {
      StillBalances(s, t, k, op.now);
      if hit == Some(k) { OfflineFraction(s.users[k], op.now); }
    }
  }

  /** The runner a rename moves takes its account along. */
  lemma MovedBalances(s: State, k: Key, newNick: Name, now: Time)
    requires k in s.users && s.users[k].connected && Moves(s, k, newNick) && Started(s.users[k], now)
    ensures var award := -PenaltySeconds(Advance(s.users[k], now, s.rules).level, NickChange, 0, s.rules);
            Balanced(s, RenameAt(s, k, newNick, now), k, GuestKey(newNick), now, award, 0)
  {
    hide Books, Advance, LevelMsgs, Queue, Stored, PenaltySeconds, ClampHeat, Settles;
    var t := RenameAt(s, k, newNick, now);
    var award := -PenaltySeconds(Advance(s.users[k], now, s.rules).level, NickChange, 0, s.rules);
    TouchBooks(s.users[k], t.users[GuestKey(newNick)], now, s.rules, award);
    BooksSettle(s.users[k], t.users[GuestKey(newNick)], s.rules, now, award);
  }

  lemma RenameBalances(s: State, op: Op, k: Key)
    requires op.OpRename? && k in s.users && Started(s.users[k], op.now)
    ensures Balanced(s, Apply(s, op), k, KeyAfter(s, op, k), op.now, AwardOf(s, op, k), 0)
  {
    hide Advance, Find, LevelMsgs, Queue, Stored, PenaltySeconds, ClampHeat, Settles, Started, RenameAt;
    var t, hit := Apply(s, op), Find(s.users, None, op.nick, op.order);
    if hit.Some? && s.users[hit.value].connected {
      if k == hit.value && Moves(s, k, op.newNick) {
        MovedBalances(s, k, op.newNick, op.now);
      } else {
        PutBalances(s, hit.value, op.newNick, op.now, k);
      }
    } else {
      StillBalances(s, t, k, op.now);
    }
  }

  /** A runner who stays put when somebody is renamed. */
  lemma PutBalances(s: State, hit: Key, newNick: Name, now: Time, k: Key)
    requires hit in s.users && k in s.users && Started(s.users[k], now) && !(k == hit && Moves(s, k, newNick))
    ensures var award := -PenaltySeconds(Advance(s.users[k], now, s.rules).level, NickChange, 0, s.rules);
            Balanced(s, RenameAt(s, hit, newNick, now), k, k, now, if k == hit then award else 0, 0)
  {
    hide Books, Advance, LevelMsgs, Queue, Stored, PenaltySeconds, ClampHeat, Settles, Started, Moves;
    var t, a := RenameAt(s, hit, newNick, now), Advance(s.users[hit], now, s.rules);
    if k == hit {
      OneNoted(s, t, hit, k, now, -PenaltySeconds(a.level, NickChange, 0, s.rules));
      NotedBalances(s, t, k, now, -PenaltySeconds(a.level, NickChange, 0, s.rules));
    } else {
      MovesElsewhere(s, hit, newNick, k);
      StillBalances(s, t, k, now);
    }
  }

  lemma MovesElsewhere(s: State, hit: Key, newNick: Name, k: Key)
    requires hit in s.users && k in s.users
    ensures Moves(s, hit, newNick) ==> GuestKey(newNick) != k
  {
  }

  lemma {:induction false} TopNoted(s: State, order: seq<Key>, now: Time, k: Key)
    requires k in s.users && Started(s.users[k], now)
    ensures Noted(s, RefreshAll(s, order, now), k, now, 0)
  {
    hide Books, Advance, LevelMsgs, Queue, Stored;
    if order != [] {
      var s1, j := RefreshAll(s, order[..|order| - 1], now), order[|order| - 1];
      TopNoted(s, order[..|order| - 1], now, k);
      if j in s1.users && s1.users[j].connected {
        OneNoted(s1, RefreshAt(s1, j, now), j, k, now, 0);
      } else {
        StillNoted(s1, s1, k, now);
      }
      NotedThrough(s, s1, RefreshAt(s1, j, now), k, now, 0, 0);
    } else {
      StillNoted(s, s, k, now);
    }
  }

  /** Everybody linked goes offline, whatever the order. */
  lemma {:induction false} PausedAll(s: State, order: seq<Key>, now: Time, k: Key)
    requires k in s.users && forall i, j :: 0 <= i < j < |order| ==> order[i] != order[j]
    ensures var t := PauseAll(s, order, now);
            && t.rules == s.rules && k in t.users
            && t.users[k] == if k in order && s.users[k].connected
                             then Advance(s.users[k], now, s.rules).(connected := false, lastProgressAt := now,
                                                                     lastHeatAt := now)
                             else s.users[k]
  {
    hide Advance, LevelMsgs, Queue, Stored;
    if order != [] {
      var rest, j := order[..|order| - 1], order[|order| - 1];
      PausedAll(s, rest, now, k);
      assert order == rest + [j] && j !in rest;
    }
  }

  lemma PauseBalances(s: State, now: Time, order: seq<Key>, k: Key)
    requires k in s.users && Started(s.users[k], now) && Enumerates(order, s.users.Keys)
    ensures Balanced(s, DisconnectAll(s, now, order), k, k, now, 0, Fraction(s.users[k], now))
  {
    hide Advance, PauseAll, Settles, Fraction;
    PausedAll(s, order, now, k);
    if s.users[k].connected {
      TakenOffSettles(s.users[k], DisconnectAll(s, now, order).users[k], now, s.rules, 0);
    } else {
      StillBalances(s, DisconnectAll(s, now, order), k, now);
      OfflineFraction(s.users[k], now);
    }
  }

  lemma RosterBalances(s: State, op: Op, k: Key)
    requires op.OpReconcile? && k in s.users && Started(s.users[k], op.now) && Enumerates(op.order, s.users.Keys)
    ensures Balanced(s, Apply(s, op), k, k, op.now, 0, DiscardOf(s, op, k))
  {
    hide Advance, Reconcile, Settles, Fraction, Roster.Expired;
    Roster.ReconcileExact(s, op.present, op.grace, op.now, op.order, k);
    if Roster.Expired(s, k, op.present, op.grace, op.now) {
      TakenOffSettles(s.users[k], Apply(s, op).users[k], op.now, s.rules, 0);
    } else {
      StillBalances(s, Apply(s, op), k, op.now);
    }
  }

  /** A restart credits nothing: what was not credited before it is gone, and so is the link. */
  lemma RestartCreditsNothing(s: State, now: Time, rng: Rng, order: seq<Key>, k: Key)
    requires Inv(s) && Enumerates(order, s.repo.players.Keys) && k in s.users
    ensures var t := Restart(s.rules, s.repo, now, rng, order);
            && k in t.users && t.rules == s.rules && !t.users[k].connected
            && Earned(t.users[k], s.rules) == Earned(s.users[k], s.rules)
  {
    hide Restart;
    Restarts.RestartKeeps(s, now, rng, order);
    assert Restarts.Reborn(Stored(s.users[k]), Restart(s.rules, s.repo, now, rng, order).users[k]);
  }

  lemma RestartBalances(s: State, op: Op, k: Key)
    requires op.OpRestart? && Inv(s) && Enumerates(op.order, s.repo.players.Keys) && k in s.users
    ensures Balanced(s, Apply(s, op), k, k, op.now, 0, DiscardOf(s, op, k))
  {
    hide Restart, Inv, Earned;
    RestartCreditsNothing(s, op.now, op.rng, op.order, k);
  }

  lemma TickBalances(s: State, op: Op, k: Key)
    requires op.OpTick? && Inv(s) && Walks(op.orders, s.users.Keys) && k in s.users && Started(s.users[k], op.now)
    requires k in Apply(s, op).users
    ensures Balanced(s, Apply(s, op), k, k, op.now, AwardOf(s, op, k), 0)
  {
    hide Tick, TickAward, Inv, Balanced, Noted, Advance, Started;
    TickNoted(s, op.now, op.orders, op.champion, k);
    NotedBalances(s, Apply(s, op), k, op.now, AwardOf(s, op, k));
  }

  /**
   Over one operation other than a merge the account of a runner balances, under whatever key it goes on: the
   time on its clock is credited, carried on or discarded, and what it earns besides is its award.
   */
  lemma OpBalances(s: State, op: Op, k: Key)
    requires Inv(s) && Sensible(s, op) && !Merges(s, op, k)
    requires k in s.users && Started(s.users[k], op.now) && KeyAfter(s, op, k) in Apply(s, op).users
    ensures Balanced(s, Apply(s, op), k, KeyAfter(s, op, k), op.now, AwardOf(s, op, k), DiscardOf(s, op, k))
  {
    hide Join, Bind, SetAlias, SetStance, SetFaction, Activity, Status, Disconnect, DisconnectAll, Reconcile, Rename,
      RefreshAll, ClaimDeadDrop, Tick, Restart, Kept, WorldSaved, Balanced, Noted, Started, PenaltySeconds, TickAward,
      Advance, ClaimHit, Find, Fraction;
    match op
    case OpJoin(nick, account, now, order) => JoinBalances(s, nick, account, now, order, k);
    case OpBind(nick, to, now, order, joinOrder) => BindBalances(s, nick, to, now, order, joinOrder, k);
    case OpSetAlias(_, _, _, _, _) => CommandNoted(s, op, k); NotedBalances(s, Apply(s, op), k, op.now, 0);
    case OpSetStance(_, _, _, _, _) => CommandNoted(s, op, k); NotedBalances(s, Apply(s, op), k, op.now, 0);
    case OpSetFaction(_, _, _, _, _) => CommandNoted(s, op, k); NotedBalances(s, Apply(s, op), k, op.now, 0);
    case OpActivity(_, _, _, _, _, _, _) =>
      ActivityNoted(s, op, k);
      NotedBalances(s, Apply(s, op), k, op.now, AwardOf(s, op, k));
    case OpStatus(_, _, _, _) => CommandNoted(s, op, k); NotedBalances(s, Apply(s, op), k, op.now, 0);
    case OpDisconnect(_, _, _, _) => DisconnectBalances(s, op, k);
    case OpDisconnectAll(now, order) => PauseBalances(s, now, order, k);
    case OpReconcile(_, _, _, _) => RosterBalances(s, op, k);
    case OpRename(_, _, _, _) => RenameBalances(s, op, k);
    case OpTop(now, order) => TopNoted(s, order, now, k); NotedBalances(s, Apply(s, op), k, op.now, 0);
    case OpClaimDeadDrop(_, _, _, _, _, _) =>
      ClaimNoted(s, op, k);
      NotedBalances(s, Apply(s, op), k, op.now, AwardOf(s, op, k));
    case OpForcePirate(now) => StillBalances(s, Apply(s, op), k, now);
    case OpTick(_, _, _) => TickBalances(s, op, k);
    case OpRestart(_, _, _) => RestartBalances(s, op, k);
  }

  // ---- Whole runs ----

  /** A run on a clock that never goes back and had read `start` at the start. */
  ghost predicate Paced(states: seq<State>, ops: seq<Op>, start: Time) {
    Run(states, ops) && InOrder(ops) && (ops != [] ==> start <= ops[0].now)
  }

  /** No record is merged with the runner's in step `m`, wherever it sits by then. */
  ghost predicate Unmerged(states: seq<State>, ops: seq<Op>, m: nat, k: Key)
    requires |states| == |ops| + 1 && m < |ops|
  {
    !Merges(states[m], ops[m], Path(states, ops, 0, m, k))
  }

  /** The runner that starts at `k` is followed through its renames, and no record is merged with its own. */
  ghost predicate Follows(states: seq<State>, ops: seq<Op>, n: nat, k: Key)
    requires |states| == |ops| + 1 && n <= |ops|
  {
    Known(states, ops, 0, n, k) && forall m: nat :: m < n ==> Unmerged(states, ops, m, k)
  }

  /** The runner at step `n`. */
  ghost function At(states: seq<State>, ops: seq<Op>, n: nat, k: Key): Runner
    requires |states| == |ops| + 1 && n <= |ops| && Follows(states, ops, n, k)
  {
    states[n].users[Path(states, ops, 0, n, k)]
  }

  /** Everything awarded to the runner, less everything it was charged. */
  ghost function Awarded(states: seq<State>, ops: seq<Op>, n: nat, k: Key): int
    requires |states| == |ops| + 1 && n <= |ops| && Follows(states, ops, n, k)
  {
    if n == 0 then 0
    else Awarded(states, ops, n - 1, k) + AwardOf(states[n - 1], ops[n - 1], Path(states, ops, 0, n - 1, k))
  }

  /** Linked time lost to cut links and restarts. */
  ghost function Discarded(states: seq<State>, ops: seq<Op>, n: nat, k: Key): int
    requires |states| == |ops| + 1 && n <= |ops| && Follows(states, ops, n, k)
  {
    if n == 0 then 0
    else Discarded(states, ops, n - 1, k) + DiscardOf(states[n - 1], ops[n - 1], Path(states, ops, 0, n - 1, k))
  }

  /** How long the runner has been linked since the clock read `start`. */
  ghost function LinkedTime(states: seq<State>, ops: seq<Op>, n: nat, k: Key, start: Time): int
    requires |states| == |ops| + 1 && n <= |ops| && Follows(states, ops, n, k)
  {
    if n == 0 then 0
    else LinkedTime(states, ops, n - 1, k, start)
         + if At(states, ops, n - 1, k).connected then ops[n - 1].now - Windows.LastTime(ops, n - 1, start) else 0
  }

  lemma StepBalances(states: seq<State>, ops: seq<Op>, i: nat, k: Key)
    requires Run(states, ops) && i < |ops| && Inv(states[i]) && !Merges(states[i], ops[i], k)
    requires k in states[i].users && Started(states[i].users[k], ops[i].now)
    requires KeyAfter(states[i], ops[i], k) in states[i + 1].users
    ensures Balanced(states[i], states[i + 1], k, KeyAfter(states[i], ops[i], k), ops[i].now,
                     AwardOf(states[i], ops[i], k), DiscardOf(states[i], ops[i], k))
  {
    hide Apply, Balanced, AwardOf, DiscardOf, Merges, Inv;
    assert StepAt(states, ops, i);
    OpBalances(states[i], ops[i], k);
  }

  /**
   The ledger of a whole run, as an equation in nanoseconds. Beyond its awards a runner's lifetime progress is
   the time it was linked, less what is still on its clock and what cut links and restarts discarded.
   */
  lemma {:induction false} LedgerOfRun(states: seq<State>, ops: seq<Op>, n: nat, k: Key, start: Time)
    requires Paced(states, ops, start) && n <= |ops| && Follows(states, ops, n, k)
    requires Started(states[0].users[k], start)
    ensures var p, q, r := states[0].users[k], At(states, ops, n, k), states[0].rules;
            && states[n].rules == r && Started(q, Windows.LastTime(ops, n, start))
            && SECOND * (Earned(q, r) - Earned(p, r) - Awarded(states, ops, n, k))
               + Carried(q, Windows.LastTime(ops, n, start)) + Discarded(states, ops, n, k)
               == LinkedTime(states, ops, n, k, start) + Carried(p, start)
  {
    hide Earned, Paced, Run, Inv, AwardOf, DiscardOf, Follows, KeyAfter, Merges;
    if n > 0 {
      PacedStep(states, ops, n, start);
      FollowsPrefix(states, ops, n, k);
      LedgerOfRun(states, ops, n - 1, k, start);
      RunKeeps(states, ops, n - 1);
      StepBalances(states, ops, n - 1, Path(states, ops, 0, n - 1, k));
    }
  }

  lemma PacedStep(states: seq<State>, ops: seq<Op>, n: nat, start: Time)
    requires Paced(states, ops, start) && 0 < n <= |ops|
    ensures Run(states, ops) && |states| == |ops| + 1
    ensures Windows.LastTime(ops, n - 1, start) <= ops[n - 1].now
  {
  }

  lemma FollowsPrefix(states: seq<State>, ops: seq<Op>, n: nat, k: Key)
    requires |states| == |ops| + 1 && 0 < n <= |ops| && Follows(states, ops, n, k)
    ensures Follows(states, ops, n - 1, k) && k in states[0].users
    ensures Path(states, ops, 0, n - 1, k) in states[n - 1].users && Path(states, ops, 0, n, k) in states[n].users
    ensures !Merges(states[n - 1], ops[n - 1], Path(states, ops, 0, n - 1, k))
  {
    assert Unmerged(states, ops, n - 1, k);
    assert Path(states, ops, 0, 0, k) == k;
  }

  /** Time is never discarded twice, and a cut link costs less than a second. */
  lemma DiscardFits(s: State, op: Op, k: Key)
    requires k in s.users && Started(s.users[k], op.now)
    ensures 0 <= DiscardOf(s, op, k) && (!op.OpRestart? ==> DiscardOf(s, op, k) < SECOND)
  {
    hide Cuts, Fraction;
    FractionFits(s.users[k], op.now);
  }

  // ---- Levels ----

  /** A guest that joins as an account comes out at no lower a level than it had. */
  lemma JoinRises(s: State, nick: Name, account: Option<Name>, now: Time, order: seq<Key>)
    requires Kept(s, {}) && JoinFrom(s, nick, account, order).Some?
    ensures var t := Join(s, nick, account, now, order);
            && JoinKey(nick, account) in t.users
            && s.users[JoinFrom(s, nick, account, order).value].level <= t.users[JoinKey(nick, account)].level
  {
    hide Enter, Migrate, Advance, Migratable;
    var g, k := JoinFrom(s, nick, account, order).value, JoinKey(nick, account);
    var s1 := Migrate(s, g, account.value, nick, now);
    Operations.MigrateShape(s, g, account.value, nick, now);
    Frames.AdvanceGrows(s.users[g], now, s.rules);
    Frames.EnterLineage(s1, k, nick, account, now);
  }

  lemma BindRises(s: State, nick: Name, to: Name, now: Time, order: seq<Key>, joinOrder: seq<Key>)
    requires Inv(s) && to.fold != "" && JoinFrom(Unbound(s, nick, to, now, order), nick, Some(to), joinOrder).Some?
    ensures var g := JoinFrom(Unbound(s, nick, to, now, order), nick, Some(to), joinOrder).value;
            var t := Bind(s, nick, to, now, order, joinOrder);
            g in s.users && AccountKey(to) in t.users && s.users[g].level <= t.users[AccountKey(to)].level
  {
    hide SwitchOff, Join, FirstConnected, Migratable;
    var old_ := SwitchedFrom(s, nick, to, order);
    if old_.Some? {
      Operations.SwitchOffKeeps(s, old_.value, now);
      Frames.SwitchOffLineage(s, old_.value, now);
    }
    JoinRises(Unbound(s, nick, to, now, order), nick, Some(to), now, joinOrder);
  }

  lemma RenameRises(s: State, k: Key, newNick: Name, now: Time)
    requires k in s.users && Moves(s, k, newNick)
    ensures var t := RenameAt(s, k, newNick, now);
            GuestKey(newNick) in t.users && s.users[k].level <= t.users[GuestKey(newNick)].level
  {
    hide Advance, LevelMsgs, Queue, Stored, PenaltySeconds, ClampHeat;
    Frames.AdvanceGrows(s.users[k], now, s.rules);
  }

  /** Whoever changes keys keeps its level. */
  lemma MoveRises(s: State, op: Op)
    requires Inv(s) && Sensible(s, op) && MoveBy(s, op).Some?
    ensures var m, t := MoveBy(s, op).value, Apply(s, op);
            m.origin in s.users && m.target in t.users && s.users[m.origin].level <= t.users[m.target].level
  {
    hide Join, Bind, RenameAt, JoinFrom, Find, Unbound, Kept, WorldSaved;
    match op
    case OpJoin(nick, account, now, order) => JoinRises(s, nick, account, now, order);
    case OpBind(nick, to, now, order, joinOrder) => BindRises(s, nick, to, now, order, joinOrder);
    case OpRename(nick, newNick, now, order) => RenameRises(s, MoveBy(s, op).value.origin, newNick, now);
    case _ =>
  }

  lemma OpRises(s: State, op: Op, k: Key)
    requires Inv(s) && Sensible(s, op) && k in s.users && KeyAfter(s, op, k) in Apply(s, op).users
    ensures s.users[k].level <= Apply(s, op).users[KeyAfter(s, op, k)].level
  {
    hide Apply, Inv, MoveBy;
    if MoveBy(s, op).Some? && k == MoveBy(s, op).value.origin {
      MoveRises(s, op);
    } else if op.OpSetFaction? {
      Frames.SetFactionLineage(s, op.identity, op.nick, op.faction, op.now, op.order);
      Windows.FactionSet(s, op);
    } else {
      Frames.OpLineage(s, op);
    }
  }

  lemma StepRises(states: seq<State>, ops: seq<Op>, i: nat, k: Key)
    requires Run(states, ops) && i < |ops| && Inv(states[i]) && k in states[i].users
    requires KeyAfter(states[i], ops[i], k) in states[i + 1].users
    ensures states[i].users[k].level <= states[i + 1].users[KeyAfter(states[i], ops[i], k)].level
  {
    hide Apply, Inv, KeyAfter;
    assert StepAt(states, ops, i);
    OpRises(states[i], ops[i], k);
  }

  /**
   No operation lowers a runner's level: not penalties, theft or restart, and neither a rename nor the merge
   that makes a guest part of an account.
   */
  lemma {:induction false} LevelsNeverDrop(states: seq<State>, ops: seq<Op>, i: nat, j: nat, k: Key)
    requires Run(states, ops) && i <= j <= |ops| && Known(states, ops, i, j, k)
    ensures k in states[i].users && Path(states, ops, i, j, k) in states[j].users
    ensures states[i].users[k].level <= states[j].users[Path(states, ops, i, j, k)].level
    decreases j
  {
    hide Inv, KeyAfter, Known;
    KnownUntil(states, ops, i, j, k);
    if i < j {
      LevelsNeverDrop(states, ops, i, j - 1, k);
      RunKeeps(states, ops, j - 1);
      StepRises(states, ops, j - 1, Path(states, ops, i, j - 1, k));
    }
  }
}
