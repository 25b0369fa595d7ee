/** What the world events of a tick leave alone of a runner: link, names and streak, and offline its gear. */
module Upheavals {
  import opened Grid
  import opened Progression
  import opened StoreRows
  import opened Machine
  import opened Invariants
  import Ledger
  import Raids
  import Ticks

  /** Link, names and streak are the same, and an offline runner's gear, level and absence. */
  predicate Spared(p: Runner, q: Runner) {
    && q.streakSince == p.streakSince && q.streakDays == p.streakDays
    && q.connected == p.connected && q.guest == p.guest && q.nick == p.nick && q.alias == p.alias
    && (!p.connected ==> q.equipment == p.equipment && q.level == p.level && q.lastSeenAt == p.lastSeenAt)
  }

  /** The runner at `k` stays, spared. */
  ghost predicate Sparing(s: State, t: State, k: Key) {
    k in s.users && k in t.users && Spared(s.users[k], t.users[k])
  }

  lemma AdvanceSpares(p: Runner, now: Time, r: Tuning)
    ensures Spared(p, Advance(p, now, r))
  {
    hide LevelLoop;
  }

  lemma {:induction false} SeatedSpares(p: Runner, seats: nat, success: bool, now: Time, r: Tuning)
    ensures Spared(p, Ledger.Seated(p, seats, success, now, r))
  {
    hide Advance, LevelDuration;
    if seats > 0 {
      SeatedSpares(p, seats - 1, success, now, r);
      AdvanceSpares(Ledger.Seated(p, seats - 1, success, now, r), now, r);
    }
  }

  lemma ContractSpares(t: TS, now: Time, k: Key)
    requires k in t.s.users
    ensures Sparing(t.s, ResolveContract(t, now).s, k)
  {
    hide SettleAll, ContractHeld, Ledger.Seated;
    if ContractDue(t.s.world, now) {
      var team, held := t.s.world.contract.value.participants, ContractHeld(t.s);
      Ledger.SettledPerSeat(t.s, team, held, now, k);
      SeatedSpares(t.s.users[k], multiset(team)[k], held, now, t.s.rules);
    }
  }

  lemma RaidSpares(t: TS, now: Time, order: seq<Key>, k: Key)
    requires Enumerates(order, t.s.users.Keys) && k in t.s.users
    ensures Sparing(t.s, ResolveRaid(t, now, order).s, k)
  {
    hide RaidStep, Raids.RaidWins, Advance, LevelDuration;
    if Ledger.RaidDue(t.s.world, now) {
      Raids.RaidReaches(t.(s := Ledger.RaidTaken(t.s)), now, order);
      AdvanceSpares(t.s.users[k], now, t.s.rules);
    }
  }

  lemma HitSpares(s: State, j: Key, event: CityEvent, now: Time, k: Key)
    requires k in s.users
    ensures Sparing(s, EventAt(s, j, event, now), k)
  {
    hide Advance, LevelMsgs, Queue, Stored, ProgressChange, Overclocked, AppendUnique;
    AdvanceSpares(s.users[k], now, s.rules);
  }

  lemma {:induction false} EventSpares(s: State, order: seq<Key>, event: CityEvent, now: Time, k: Key)
    requires k in s.users
    ensures Sparing(s, EventAll(s, order, event, now), k)
  {
    hide EventAt;
    if order != [] {
      EventSpares(s, order[..|order| - 1], event, now, k);
      HitSpares(EventAll(s, order[..|order| - 1], event, now), order[|order| - 1], event, now, k);
    }
  }

  lemma CitySpares(t: TS, now: Time, order: seq<Key>, k: Key)
    requires k in t.s.users
    ensures Sparing(t.s, CityEventTick(t, now, order).s, k)
  {
    hide EventAll, ConnectedIn, DropCode, StoredWorld;
    var (news, rng) := Pick(t.s, order);
    if news.Event? { EventSpares(t.s.(rng := rng), order, news.kind, now, k); }
  }

  lemma WorldSpares(s: State, now: Time, ord: Orders, k: Key)
    requires Inv(s) && Walks(ord, s.users.Keys) && k in s.users
    ensures Sparing(s, WorldSteps(TS(s.(pending := []), []), now, ord).s, k)
  {
    hide NextSwap, ResolveContract, ResolveRaid, CityEventTick, Inv;
    Ledger.WorldKeys(s, now, ord);
    var t1 := SwapTick(TS(s.(pending := []), []), now);
    var t2 := ResolveContract(t1, now);
    ContractSpares(t1, now, k);
    RaidSpares(t2, now, ord.raid, k);
    CitySpares(DropExpiry(ResolveRaid(t2, now, ord.raid), now), now, ord.event, k);
  }

  lemma WorldKept(s: State, now: Time, ord: Orders)
    requires Inv(s)
    ensures Kept(WorldSteps(TS(s.(pending := []), []), now, ord).s, {})
  {
    hide WorldSteps;
    Ticks.PendingIrrelevant(s);
    Ticks.WorldStepsKeep(TS(s.(pending := []), []), now, ord);
  }

  lemma WorldKeys(s: State, now: Time, ord: Orders)
    requires Inv(s)
    ensures WorldSteps(TS(s.(pending := []), []), now, ord).s.users.Keys == s.users.Keys
  {
    hide WorldSteps;
    Ticks.PendingIrrelevant(s);
    Ticks.WorldStepsKeep(TS(s.(pending := []), []), now, ord);
  }
}
