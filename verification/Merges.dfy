/** What becomes of a guest's and an account's records when a user identifies. */
module Merges {
  import opened Grid
  import opened Progression
  import opened StoreRows
  import opened Machine
  import opened Invariants
  import Accounts
  import Ledger
  import Operations

  // ---- Two records become one ----

  /** Higher level, or the same level and more on the meter. */
  predicate Beyond(p: Runner, q: Runner) { p.level > q.level || (p.level == q.level && p.progress > q.progress) }

  predicate SameStanding(p: Runner, q: Runner) { p.level == q.level && p.progress == q.progress }

  /** The better standing of the two is kept, with the greater Heat and the later of every clock and swap. */
  lemma MergeKeepsBest(guest: Runner, account: Runner)
    ensures var q := Merge(guest, account);
            && !Beyond(guest, q) && !Beyond(account, q) && (SameStanding(q, guest) || SameStanding(q, account))
            && guest.heat <= q.heat && account.heat <= q.heat && (q.heat == guest.heat || q.heat == account.heat)
            && guest.lastSeenAt <= q.lastSeenAt && account.lastSeenAt <= q.lastSeenAt
            && guest.lastProgressAt <= q.lastProgressAt && account.lastProgressAt <= q.lastProgressAt
            && guest.lastHeatAt <= q.lastHeatAt && account.lastHeatAt <= q.lastHeatAt
            && guest.lastFactionSwapAt <= q.lastFactionSwapAt && account.lastFactionSwapAt <= q.lastFactionSwapAt
  {
    hide MergeGear, MergeRivals, AppendUnique;
  }

  /** In each slot the higher rated item is kept, and the account's own of two that rate alike. */
  lemma MergeKeepsBetterGear(guest: Runner, account: Runner, slot: Slot)
    ensures var item := GearIn(Merge(guest, account).equipment, slot);
            && item.rating >= GearIn(account.equipment, slot).rating
            && (slot in guest.equipment ==> item.rating >= guest.equipment[slot].rating)
            && (item == GearIn(account.equipment, slot)
                || (item == GearIn(guest.equipment, slot) && item.rating > GearIn(account.equipment, slot).rating))
  {
    hide MergeRivals, AppendUnique;
  }

  /** Bouts against every rival add up, and each scar of either is kept, once. */
  lemma MergeKeepsHistory(guest: Runner, account: Runner, rival: Key, scar: Scar)
    ensures var q := Merge(guest, account);
            && Bouts(q.rivals, rival) == Bouts(guest.rivals, rival) + Bouts(account.rivals, rival)
            && (scar in q.scars <==> scar in guest.scars || scar in account.scars)
            && (Distinct(account.scars) ==> Distinct(q.scars))
  {
    hide MergeGear, AppendUnique;
    AppendUniqueIs(account.scars, guest.scars);
  }

  /**
   The account's own choices stand where it made any, its faction in any case; the streak is the guest's, which is
   the one on the link, and the district is that of the record seen last.
   */
  lemma MergeKeepsChoices(guest: Runner, account: Runner)
    ensures var q := Merge(guest, account);
            && q.alias == (if account.alias.Some? then account.alias else guest.alias)
            && q.stance == (if account.stance != Normal then account.stance else guest.stance)
            && q.faction == account.faction
            && q.streakSince == guest.streakSince && q.streakDays == guest.streakDays
            && (guest.lastSeenAt > account.lastSeenAt ==> q.district == guest.district)
            && (guest.lastSeenAt <= account.lastSeenAt ==> q.district == account.district)
  {
    hide MergeGear, MergeRivals, AppendUnique;
  }

  // ---- Lifetime progress ----

  /**
   The record with the higher level is so deep in debt that the other has earned more: its meter is below the other's
   by more than the levels between them cost.
   */
  predicate Indebted(high: Runner, low: Runner, r: Rules) {
    && high.level > low.level
    && low.progress - high.progress > CumulativeSeconds(r, high.level) - CumulativeSeconds(r, low.level)
  }

  /** A merge keeps the greater lifetime progress of the two, except if the record with the higher level is indebted. */
  lemma MergeLosesExactly(guest: Runner, account: Runner, r: Rules)
    ensures Ledger.Earned(Merge(guest, account), r) < Max(Ledger.Earned(guest, r), Ledger.Earned(account, r))
       <==> Indebted(guest, account, r) || Indebted(account, guest, r)
  {
    hide MergeGear, MergeRivals, AppendUnique, CumulativeSeconds;
  }

  /** Only debt loses: with nothing owed and every level taken that was paid for, the greater progress is kept. */
  lemma SolventNeverIndebted(high: Runner, low: Runner, r: Rules)
    requires high.progress >= 0 && low.progress < LevelDuration(r, low.level)
    ensures !Indebted(high, low, r)
  {
    hide LevelDuration;
    if high.level > low.level + 1 { CumulativeMonotone(r, low.level + 1, high.level); }
  }

  /** A guest with a minute on its meter joins an account a level up that owes an hour: the minute is gone. */
  lemma DebtLosesProgress(guest: Runner, account: Runner, r: Rules)
    requires r.baseLevelSeconds == 1800 && r.levelStepSeconds == 0
    requires guest.level == 1 && guest.progress == 60 && account.level == 2 && account.progress == -3600
    ensures Ledger.Earned(Merge(guest, account), r) == -1800 && Ledger.Earned(guest, r) == 60
  {
    hide MergeGear, MergeRivals, AppendUnique;
    assert CumulativeSeconds(r, 2) == CumulativeSeconds(r, 1) + 1800;
  }

  lemma AdvanceEarnsOn(p: Runner, now: Time, r: Tuning)
    ensures Ledger.Earned(Advance(p, now, r), r) >= Ledger.Earned(p, r)
  {
    if p.connected {
      ClockedIgnoresMeter(p, MeterOf(p), now, r);
      LevelLoopKeeps(MeterOf(Clocked(p, now, r)), r);
    }
    hide LevelLoop, Clocked, CumulativeSeconds;
  }

  lemma EnterEarnsOn(s: State, k: Key, nick: Name, account: Option<Name>, now: Time)
    requires k in s.users
    ensures k in Enter(s, k, nick, account, now).users
    ensures Ledger.Earned(Enter(s, k, nick, account, now).users[k], s.rules) >= Ledger.Earned(s.users[k], s.rules)
  {
    hide Advance, LevelMsgs, Queue, Stagger, Stored, CumulativeSeconds;
    AdvanceEarnsOn(s.users[k], now, s.rules);
  }

  /** What a merge earns, before the names are changed. */
  lemma MigratedEarns(guest: Runner, row: Option<Runner>, k: Key, account: Name, nick: Name, r: Rules)
    requires row.Some? ==> !Indebted(guest, row.value, r) && !Indebted(row.value, guest, r)
    ensures var q := Migrated(guest, row, k, account, nick);
            && Ledger.Earned(q, r) >= Ledger.Earned(guest, r)
            && (row.Some? ==> Ledger.Earned(q, r) >= Ledger.Earned(row.value, r))
  {
    hide Merge, CumulativeSeconds, Indebted;
    if row.Some? { MergeLosesExactly(guest, row.value, r); }
  }

  /**
   Identifying loses no progress: unless one of the records is indebted, the account's runner comes out with no less
   lifetime progress than the guest had, nor than it had itself.
   */
  lemma JoinLosesNoProgress(s: State, nick: Name, account: Name, now: Time, order: seq<Key>)
    requires Inv(s) && JoinFrom(s, nick, Some(account), order).Some?
    requires var a := Advance(s.users[JoinFrom(s, nick, Some(account), order).value], now, s.rules);
             AccountKey(account) in s.users ==>
               && !Indebted(a, s.users[AccountKey(account)], s.rules)
               && !Indebted(s.users[AccountKey(account)], a, s.rules)
    ensures var g, k, t := JoinFrom(s, nick, Some(account), order).value, AccountKey(account),
                           Join(s, nick, Some(account), now, order);
            && k in t.users
            && Ledger.Earned(t.users[k], s.rules) >= Ledger.Earned(s.users[g], s.rules)
            && (k in s.users ==> Ledger.Earned(t.users[k], s.rules) >= Ledger.Earned(s.users[k], s.rules))
  {
    hide Enter, Migrate, Migratable, Advance, Migrated, Core, Synced, WorldSaved, CumulativeSeconds, Indebted, Stored,
      Ledger.Earned;
    var g, k := JoinFrom(s, nick, Some(account), order).value, AccountKey(account);
    var a := Advance(s.users[g], now, s.rules);
    var row := if k in s.users then Some(Stored(s.users[k])) else None;
    var s1 := Migrate(s, g, account, nick, now);
    Operations.MigrateShape(s, g, account, nick, now);
    Accounts.MigratedAway(s, g, account, nick, now);
    StoredEarns(a, s.rules);
    if k in s.users {
      StoredEarns(s.users[k], s.rules);
      StoredDebt(a, s.users[k], s.rules);
      StoredDebt(s.users[k], a, s.rules);
    }
    AdvanceEarnsOn(s.users[g], now, s.rules);
    MigratedEarns(Stored(a), row, k, account, nick, s.rules);
    EnterEarnsOn(s1, k, nick, Some(account), now);
  }

  lemma StoredEarns(p: Runner, r: Rules)
    ensures Ledger.Earned(Stored(p), r) == Ledger.Earned(p, r)
  {
  }

  lemma StoredDebt(p: Runner, q: Runner, r: Rules)
    ensures Indebted(Stored(p), Stored(q), r) <==> Indebted(p, q, r)
  {
  }

  // ---- The join ----

  /** After the merge the account's runner has both records' bouts and scars, and an alias if either had one. */
  lemma JoinKeepsHistory(s: State, nick: Name, account: Name, now: Time, order: seq<Key>, rival: Key, scar: Scar)
    requires Inv(s) && JoinFrom(s, nick, Some(account), order).Some?
    ensures var g, k, t := JoinFrom(s, nick, Some(account), order).value, AccountKey(account),
                           Join(s, nick, Some(account), now, order);
            && k in t.users
            && var p, q := s.users[g], t.users[k];
               if k in s.users then
                 var a := s.users[k];
                 && Bouts(q.rivals, rival) == Bouts(p.rivals, rival) + Bouts(a.rivals, rival)
                 && (scar in q.scars <==> scar in p.scars || scar in a.scars)
                 && q.alias == (if a.alias.Some? then a.alias else p.alias)
               else q.rivals == p.rivals && q.scars == p.scars && q.alias == p.alias
  {
    hide Enter, Migrate, Migratable, Advance, Merge, Core, Synced, WorldSaved, MergeRivals, AppendUnique;
    var g, k := JoinFrom(s, nick, Some(account), order).value, AccountKey(account);
    var a := Advance(s.users[g], now, s.rules);
    Operations.MigrateShape(s, g, account, nick, now);
    HistoryStands(s.users[g], now, s.rules);
    if k in s.users {
      MergeKeepsHistory(Stored(a), Stored(s.users[k]), rival, scar);
      MergeKeepsChoices(Stored(a), Stored(s.users[k]));
    }
    EnterKeepsHistory(Migrate(s, g, account, nick, now), k, nick, Some(account), now);
  }

  lemma HistoryStands(p: Runner, now: Time, r: Tuning)
    ensures var q := Advance(p, now, r); q.rivals == p.rivals && q.scars == p.scars && q.alias == p.alias
  {
    hide LevelLoop;
  }

  lemma EnterKeepsHistory(s: State, k: Key, nick: Name, account: Option<Name>, now: Time)
    requires k in s.users
    ensures k in Enter(s, k, nick, account, now).users
    ensures var p, q := s.users[k], Enter(s, k, nick, account, now).users[k];
            q.rivals == p.rivals && q.scars == p.scars && q.alias == p.alias
  {
    hide Advance, LevelMsgs, Queue, Stagger, Stored;
    HistoryStands(s.users[k], now, s.rules);
  }
}
