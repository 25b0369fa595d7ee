/**
 The progress ledger: over one operation a runner's lifetime progress grows by the connected seconds it is
 credited and by what the operation awards or charges, and by nothing else.
 */
module Ledger {
  import opened Grid
  import opened Progression
  import opened StoreRows
  import opened Machine
  import opened Invariants
  import Raids
  import Ticks

  /** Everything ever earned: the cost of the levels behind the runner and what is on the meter. */
  function Earned(p: Runner, r: Rules): int { Lifetime(MeterOf(p), r) }

  /** A linked runner's progress clock has started and is not ahead of time. */
  predicate Started(p: Runner, now: Time) {
    p.connected ==> 0 < p.lastProgressAt <= now
  }

  /**
   From `p` to `q` the runner stays as linked as it was and earns `award` besides the seconds its progress
   clock moved on by. Offline nothing moves.
   */
  predicate Books(p: Runner, q: Runner, r: Rules, now: Time, award: int) {
    && q.connected == p.connected
    && if p.connected then
         && p.lastProgressAt <= q.lastProgressAt <= now
         && q.lastProgressAt - p.lastProgressAt == SECOND * (Earned(q, r) - Earned(p, r) - award)
       else Earned(q, r) == Earned(p, r) + award
  }

  lemma BooksThrough(p: Runner, q: Runner, u: Runner, r: Rules, now: Time, first: int, second: int)
    requires Books(p, q, r, now, first) && Books(q, u, r, now, second)
    ensures Books(p, u, r, now, first + second)
  {
    hide Earned;
  }

  lemma NothingBooked(p: Runner, r: Rules, now: Time)
    requires Started(p, now)
    ensures Books(p, p, r, now, 0)
  {
    hide Earned;
  }

  /** The seconds an advance credits. */
  function Credit(p: Runner, now: Time): nat {
    if p.connected then Elapsed(p.lastProgressAt, now, SECOND) else 0
  }

  /** An advance credits the whole connected seconds, level-ups included, and carries the rest of a second. */
  lemma AdvanceEarns(p: Runner, now: Time, r: Tuning)
    requires Started(p, now)
    ensures var q := Advance(p, now, r);
            && q.connected == p.connected && Earned(q, r) == Earned(p, r) + Credit(p, now)
            && (p.connected ==> q.lastProgressAt == p.lastProgressAt + Credit(p, now) * SECOND)
  {
    if p.connected {
      LevelLoopKeeps(MeterOf(Clocked(p, now, r)), r);
    }
  }

  lemma CreditFits(p: Runner, now: Time)
    requires p.connected && Started(p, now)
    ensures p.lastProgressAt + Credit(p, now) * SECOND <= now < p.lastProgressAt + Credit(p, now) * SECOND + SECOND
  {
    DivisionBounds(now - p.lastProgressAt, SECOND);
  }

  /** `q` is `a` but for `award` on the meter and things the ledger does not see. */
  predicate Booked(a: Runner, q: Runner, award: int) {
    q.connected == a.connected && q.lastProgressAt == a.lastProgressAt && q.level == a.level
    && q.progress == a.progress + award
  }

  lemma BookedIs(a: Runner, q: Runner, r: Rules, now: Time, award: int)
    requires Booked(a, q, award) && Started(a, now)
    ensures Books(a, q, r, now, award)
  {
  }

  /** Advancing a runner and then awarding it something. */
  lemma TouchBooks(p: Runner, q: Runner, now: Time, r: Tuning, award: int)
    requires Started(p, now) && Booked(Advance(p, now, r), q, award)
    ensures Books(p, q, r, now, award) && Started(q, now)
  {
    AdvanceEarns(p, now, r);
    if p.connected { CreditFits(p, now); }
    hide Advance;
    assert Earned(q, r) == Earned(Advance(p, now, r), r) + award;
  }

  // ---- What the parts of a tick award ----

  function SettleAmount(p: Runner, success: bool, r: Rules): int {
    if success then Max(60, LevelDuration(r, p.level) / 6) else -Max(120, LevelDuration(r, p.level) / 4)
  }

  /** The runner after its first `seats` seats on a contract were settled. */
  function Seated(p: Runner, seats: nat, success: bool, now: Time, r: Tuning): Runner {
    if seats == 0 then p else Settled(Advance(Seated(p, seats - 1, success, now, r), now, r), success, r)
  }

  /** A participant's share, once for every seat it has on the contract, at the level reached by then. */
  function SettleAward(p: Runner, seats: nat, success: bool, now: Time, r: Tuning): int {
    if seats == 0 then 0
    else
      SettleAward(p, seats - 1, success, now, r)
      + SettleAmount(Advance(Seated(p, seats - 1, success, now, r), now, r), success, r)
  }

  /** Settling a team settles each runner once per seat, whoever else sits on it and in whatever order. */
  lemma {:induction false} SettledPerSeat(s: State, team: seq<Key>, success: bool, now: Time, k: Key)
    requires k in s.users
    ensures var t := SettleAll(s, team, success, now);
            && k in t.users && t.rules == s.rules
            && t.users[k] == Seated(s.users[k], multiset(team)[k], success, now, s.rules)
  {
    hide Advance, Settled, LevelMsgs, Queue, Stored;
    if team != [] {
      var rest, j := team[..|team| - 1], team[|team| - 1];
      assert team == rest + [j];
      SettledPerSeat(s, rest, success, now, k);
    }
  }

  lemma SettledBooked(a: Runner, success: bool, r: Rules)
    ensures Booked(a, Settled(a, success, r), SettleAmount(a, success, r))
  {
  }

  lemma {:induction false} SeatedBooks(p: Runner, seats: nat, success: bool, now: Time, r: Tuning)
    requires Started(p, now)
    ensures var q := Seated(p, seats, success, now, r);
            Books(p, q, r, now, SettleAward(p, seats, success, now, r)) && Started(q, now)
  {
    hide Advance, Books, Settled, SettleAmount, Booked, Started;
    if seats == 0 {
      NothingBooked(p, r, now);
    } else {
      var q := Seated(p, seats - 1, success, now, r);
      var a := Advance(q, now, r);
      SeatedBooks(p, seats - 1, success, now, r);
      SettledBooked(a, success, r);
      TouchBooks(q, Settled(a, success, r), now, r, SettleAmount(a, success, r));
      BooksThrough(p, q, Settled(a, success, r), r, now, SettleAward(p, seats - 1, success, now, r),
                   SettleAmount(a, success, r));
    }
  }

  /** A resolved contract awards or charges a runner once for every seat it has. */
  lemma SettleAllBooks(s: State, team: seq<Key>, success: bool, now: Time, k: Key)
    requires k in s.users && Started(s.users[k], now)
    ensures Noted(s, SettleAll(s, team, success, now), k, now,
                  SettleAward(s.users[k], multiset(team)[k], success, now, s.rules))
  {
    hide SettleAll, Books, SettleAward, Seated;
    SettledPerSeat(s, team, success, now, k);
    SeatedBooks(s.users[k], multiset(team)[k], success, now, s.rules);
  }

  /** From `s` to `t` the runner at `k` is still there and its books balance with the award. */
  ghost predicate Noted(s: State, t: State, k: Key, now: Time, award: int) {
    && k in s.users && k in t.users && t.rules == s.rules && Started(s.users[k], now) && Started(t.users[k], now)
    && Books(s.users[k], t.users[k], s.rules, now, award)
  }

  lemma NotedThrough(s: State, t: State, u: State, k: Key, now: Time, first: int, second: int)
    requires Noted(s, t, k, now, first) && Noted(t, u, k, now, second)
    ensures Noted(s, u, k, now, first + second)
  {
    hide Books;
    BooksThrough(s.users[k], t.users[k], u.users[k], s.rules, now, first, second);
  }

  lemma NotedBooked(s: State, t: State, k: Key, now: Time, award: int)
    requires k in s.users && k in t.users && t.rules == s.rules && Started(s.users[k], now)
    requires Booked(s.users[k], t.users[k], award)
    ensures Noted(s, t, k, now, award)
  {
    hide Books;
    BookedIs(s.users[k], t.users[k], s.rules, now, award);
  }

  lemma NotedTouched(s: State, t: State, k: Key, now: Time, award: int)
    requires k in s.users && k in t.users && t.rules == s.rules && Started(s.users[k], now)
    requires Booked(Advance(s.users[k], now, s.rules), t.users[k], award)
    ensures Noted(s, t, k, now, award)
  {
    hide Books, Booked, Advance;
    TouchBooks(s.users[k], t.users[k], now, s.rules, award);
  }

  // ---- Raids ----

  function RaidAmount(p: Runner, won: bool, r: Rules): int {
    if won then Max(60, LevelDuration(r, p.level) / 8) else -Max(60, LevelDuration(r, p.level) / 12)
  }

  lemma RaidedBooked(p: Runner, won: bool, r: Rules)
    ensures Booked(p, Raided(p, won, r), RaidAmount(p, won, r))
  {
  }

  predicate RaidDue(w: World, now: Time) {
    w.raid.Some? && now >= w.raid.value
  }

  /** The raid at hand is over with. */
  function RaidTaken(s: State): State { s.(world := s.world.(raid := None)) }

  /** A linked runner's share of a raid, at the level reached by then. */
  function RaidAward(s: State, now: Time, order: seq<Key>, k: Key): int
    requires k in s.users
  {
    if RaidDue(s.world, now) && s.users[k].connected
    then RaidAmount(Advance(s.users[k], now, s.rules), Raids.RaidWins(RaidTaken(s), now, order), s.rules)
    else 0
  }

  /** A raid pays or charges every linked runner its share, once, and nobody else. */
  lemma RaidNoted(t: TS, now: Time, order: seq<Key>, k: Key)
    requires Enumerates(order, t.s.users.Keys) && k in t.s.users && Started(t.s.users[k], now)
    ensures Noted(t.s, ResolveRaid(t, now, order).s, k, now, RaidAward(t.s, now, order, k))
  {
    hide RaidStep, Raids.RaidWins, Books, Advance, Raided, RaidAmount, Booked;
    if RaidDue(t.s.world, now) {
      var u := t.(s := RaidTaken(t.s));
      Raids.RaidReaches(u, now, order);
      var won, a := Raids.RaidWins(u.s, now, order), Advance(t.s.users[k], now, t.s.rules);
      if t.s.users[k].connected {
        RaidedBooked(a, won, t.s.rules);
        NotedTouched(t.s, ResolveRaid(t, now, order).s, k, now, RaidAmount(a, won, t.s.rules));
      } else {
        StillNoted(t.s, ResolveRaid(t, now, order).s, k, now);
      }
    } else {
      StillNoted(t.s, t.s, k, now);
    }
  }

  // ---- City events ----

  /** What a city event brings or costs a runner, by its build and district. */
  function EventAward(s: State, event: CityEvent, now: Time, k: Key): int
    requires k in s.users
  {
    if s.users[k].connected then ProgressChange(event, Advance(s.users[k], now, s.rules)) else 0
  }

  lemma HitNoted(s: State, j: Key, event: CityEvent, now: Time, k: Key)
    requires k in s.users && Started(s.users[k], now)
    ensures Noted(s, EventAt(s, j, event, now), k, now,
                  if j == k then EventAward(s, event, now, k) else 0)
    ensures j != k ==> EventAt(s, j, event, now).users[k] == s.users[k]
  {
    hide Advance, Books, Stored, ProgressChange, Overclocked, LevelMsgs, Queue;
    if j == k && s.users[k].connected {
      NotedTouched(s, EventAt(s, j, event, now), k, now, ProgressChange(event, Advance(s.users[k], now, s.rules)));
    } else {
      NotedBooked(s, EventAt(s, j, event, now), k, now, 0);
    }
  }

  lemma {:induction false} EventElsewhere(s: State, order: seq<Key>, event: CityEvent, now: Time, k: Key)
    requires k in s.users && k !in order
    ensures var t := EventAll(s, order, event, now);
            k in t.users && t.users[k] == s.users[k] && t.rules == s.rules
  {
    hide Advance, HitAt, LevelMsgs, Queue, Stored;
    if order != [] {
      EventElsewhere(s, order[..|order| - 1], event, now, k);
      HitsOnly(EventAll(s, order[..|order| - 1], event, now), order[|order| - 1], event, now, k);
    }
  }

  lemma HitsOnly(s: State, j: Key, event: CityEvent, now: Time, k: Key)
    requires k in s.users && j != k
    ensures var t := EventAt(s, j, event, now);
            k in t.users && t.users[k] == s.users[k] && t.rules == s.rules
  {
    hide Advance, EventHit, LevelMsgs, Queue, Stored;
  }

  /** A city event moves every linked runner's meter once, by the amount for its build and district. */
  lemma {:induction false} EventNoted(s: State, order: seq<Key>, event: CityEvent, now: Time, k: Key)
    requires k in s.users && Started(s.users[k], now) && k in order
    requires forall i, j :: 0 <= i < j < |order| ==> order[i] != order[j]
    ensures Noted(s, EventAll(s, order, event, now), k, now, EventAward(s, event, now, k))
  {
    hide Advance, Books, EventAt, ProgressChange;
    var rest, j := order[..|order| - 1], order[|order| - 1];
    var s1 := EventAll(s, rest, event, now);
    assert order == rest + [j];
    if j == k {
      EventElsewhere(s, rest, event, now, k);
      HitNoted(s1, j, event, now, k);
    } else {
      EventNoted(s, rest, event, now, k);
      HitNoted(s1, j, event, now, k);
    }
  }

  function CityAward(s: State, now: Time, order: seq<Key>, k: Key): int
    requires k in s.users
  {
    var (news, rng) := Pick(s, order);
    if Due(s.world.nextCityEventAt, now) && news.Event? then EventAward(s, news.kind, now, k) else 0
  }

  lemma CityNoted(t: TS, now: Time, order: seq<Key>, k: Key)
    requires Enumerates(order, t.s.users.Keys) && k in t.s.users && Started(t.s.users[k], now)
    ensures Noted(t.s, CityEventTick(t, now, order).s, k, now, CityAward(t.s, now, order, k))
  {
    hide EventAll, ConnectedIn, DropCode, Books, StoredWorld, Advance, ProgressChange;
    var (news, rng) := Pick(t.s, order);
    if Due(t.s.world.nextCityEventAt, now) && news.Event? {
      var u := t.s.(rng := rng);
      EventNoted(u, order, news.kind, now, k);
      assert EventAward(u, news.kind, now, k) == EventAward(t.s, news.kind, now, k);
    } else {
      NotedBooked(t.s, CityEventTick(t, now, order).s, k, now, 0);
    }
  }

  // ---- A runner's own turn ----

  function StreakAmount(p: Runner, now: Time, r: Rules): int {
    if p.streakSince != 0 && (now - p.streakSince) / STREAK_DAY > p.streakDays
    then Max(120, LevelDuration(r, p.level) / 4) else 0
  }

  /** What an encounter pays or costs. */
  function IceAmount(s: State, k: Key, now: Time, champion: Faction): int
    requires k in s.users
  {
    var p, r := s.users[k], s.rules;
    if !Due(p.nextEncounterAt, now) then 0
    else if Draw(s.rng, 100) < IceWinChance(p, champion) then
      var base := Max(10, LevelDuration(r, p.level) / 20);
      StanceReward(p.stance, if p.faction == Chrome then base * 3 / 2 else base)
    else
      var base := Max(5, LevelDuration(r, p.level) / 30);
      var softened := if p.faction == Nomad then Max(3, base / 2) else base;
      -(if p.district == GhostQuarter then softened * 3 / 2 else softened)
  }

  lemma StreakNoted(t: TS, k: Key, now: Time)
    requires k in t.s.users && Started(t.s.users[k], now)
    ensures Noted(t.s, StreakStep(t, k, now).s, k, now, StreakAmount(t.s.users[k], now, t.s.rules))
  {
    hide Books, LevelDuration, Max, DisplayName;
    NotedBooked(t.s, StreakStep(t, k, now).s, k, now, StreakAmount(t.s.users[k], now, t.s.rules));
  }

  lemma DriftNoted(t: TS, k: Key, now: Time)
    requires k in t.s.users && Started(t.s.users[k], now)
    ensures Noted(t.s, DriftStep(t, k, now).s, k, now, 0)
  {
    hide Books, OtherDistrict, DisplayName;
    NotedBooked(t.s, DriftStep(t, k, now).s, k, now, 0);
  }

  /** A roll of the drop table touches gear alone. */
  lemma LootBooked(s: State, k: Key, exclude: Option<ItemName>)
    requires k in s.users
    ensures var t := RareLoot(s, k, exclude);
            t.rules == s.rules && k in t.users && Booked(s.users[k], t.users[k], 0)
  {
    hide FreshArtifact, Unclaimed, RareLootChance;
  }

  lemma EncounterBooked(t: TS, k: Key, now: Time, champion: Faction)
    requires k in t.s.users && Due(t.s.users[k].nextEncounterAt, now)
    ensures var u := Encounter(t, k, champion);
            && k in u.s.users && u.s.rules == t.s.rules
            && Booked(t.s.users[k], u.s.users[k], IceAmount(t.s, k, now, champion))
  {
    hide RareLoot, LootSlot, IceWinChance, LevelDuration, StanceReward, StanceHeat, DisplayName;
    var s, p := t.s, t.s.users[k];
    if Draw(s.rng, 100) < IceWinChance(p, champion) {
      LootBooked(SetAt(s, k, IceWon(p, Draw(Rest(s.rng), 25) == 0, s.rules)).(rng := Rest(Rest(s.rng))), k, None);
    }
  }

  lemma EncounterNoted(t: TS, k: Key, now: Time, champion: Faction)
    requires k in t.s.users && Started(t.s.users[k], now)
    ensures Noted(t.s, EncounterStep(t, k, now, champion).s, k, now, IceAmount(t.s, k, now, champion))
  {
    hide Books, Encounter, Advance, LevelMsgs, Queue;
    if Due(t.s.users[k].nextEncounterAt, now) {
      var u := Encounter(t, k, champion).s;
      EncounterBooked(t, k, now, champion);
      NotedBooked(t.s, u, k, now, IceAmount(t.s, k, now, champion));
      RearmNoted(u, k, now);
      NotedThrough(t.s, u, Rearm(u, k, now), k, now, IceAmount(t.s, k, now, champion), 0);
    } else {
      hide IceAmount;
      NotedBooked(t.s, t.s, k, now, 0);
    }
  }

  lemma RearmNoted(s: State, k: Key, now: Time)
    requires k in s.users && Started(s.users[k], now)
    ensures Noted(s, Rearm(s, k, now), k, now, 0)
  {
    hide Books, Advance, LevelMsgs, Queue;
    var t := SetAt(s, k, Rearmed(s.users[k], now, s.rules));
    NotedBooked(s, t, k, now, 0);
    NotedTouched(t, Rearm(s, k, now), k, now, 0);
    NotedThrough(s, t, Rearm(s, k, now), k, now, 0, 0);
  }

  lemma BurnSlotBooked(t: TS, k: Key, slot: Slot)
    requires k in t.s.users
    ensures var u := BurnSlot(t, k, slot);
            k in u.s.users && u.s.rules == t.s.rules && Booked(t.s.users[k], u.s.users[k], 0)
  {
    hide RareLoot, LootSlot, StandardItem, DisplayName;
    if BurnsOut(t.s.users[k], slot) {
      LootBooked(RetireAt(t.s, k, slot), k, Some(t.s.users[k].equipment[slot].name));
    }
  }

  lemma {:induction false} BurnSlotsBooked(t: TS, k: Key, n: nat)
    requires k in t.s.users && n <= |SLOTS|
    ensures var u := BurnSlots(t, k, n);
            k in u.s.users && u.s.rules == t.s.rules && Booked(t.s.users[k], u.s.users[k], 0)
  {
    hide BurnSlot;
    if n > 0 {
      BurnSlotsBooked(t, k, n - 1);
      BurnSlotBooked(BurnSlots(t, k, n - 1), k, SLOTS[n - 1]);
    }
  }

  lemma UpkeepNoted(t: TS, k: Key, now: Time)
    requires k in t.s.users && Started(t.s.users[k], now)
    ensures Noted(t.s, UpkeepStep(t, k).s, k, now, 0)
  {
    hide Books, BurnSlots, Stored;
    BurnSlotsBooked(TakePending(t), k, |SLOTS|);
    NotedBooked(t.s, UpkeepStep(t, k).s, k, now, 0);
  }

  /** Streak and encounter, each at the level reached by then. */
  function TurnAward(t: TS, k: Key, now: Time, champion: Faction): int
    requires k in t.s.users
  {
    if !t.s.users[k].connected then 0
    else
      var t1 := t.(s := AdvanceAt(t.s, k, now));
      var t3 := DriftStep(StreakStep(t1, k, now), k, now);
      StreakAmount(t1.s.users[k], now, t1.s.rules) + IceAmount(t3.s, k, now, champion)
  }

  lemma PassiveNoted(t: TS, k: Key, now: Time, champion: Faction)
    requires k in t.s.users && t.s.users[k].connected && Started(t.s.users[k], now)
    ensures Noted(t.s, PassiveStep(t, k, now, champion).s, k, now, TurnAward(t, k, now, champion))
  {
    hide Books, Advance, LevelMsgs, Queue, StreakStep, DriftStep, EncounterStep, StreakAmount, IceAmount, Booked;
    var t1 := t.(s := AdvanceAt(t.s, k, now));
    AdvanceBooked(t.s, k, now);
    StreakNoted(t1, k, now);
    var t2 := StreakStep(t1, k, now);
    DriftNoted(t2, k, now);
    var t3 := DriftStep(t2, k, now);
    EncounterNoted(t3, k, now, champion);
    var streak, ice := StreakAmount(t1.s.users[k], now, t1.s.rules), IceAmount(t3.s, k, now, champion);
    NotedThrough(t.s, t1.s, t2.s, k, now, 0, streak);
    NotedThrough(t.s, t2.s, t3.s, k, now, streak, 0);
    NotedThrough(t.s, t3.s, EncounterStep(t3, k, now, champion).s, k, now, streak, ice);
  }

  lemma AdvanceBooked(s: State, k: Key, now: Time)
    requires k in s.users && Started(s.users[k], now)
    ensures Noted(s, AdvanceAt(s, k, now), k, now, 0)
  {
    hide Books, Advance, LevelMsgs, Queue;
    NotedTouched(s, AdvanceAt(s, k, now), k, now, 0);
  }

  // ---- The walk over the runners ----

  lemma {:induction false} RetiredBooked(t: TS, k: Key, n: nat)
    requires k in t.s.users && n <= |SLOTS|
    ensures var u := RetireSlots(t, k, n);
            k in u.s.users && u.s.rules == t.s.rules && Booked(t.s.users[k], u.s.users[k], 0)
  {
    hide StandardItem, DisplayName;
    if n > 0 {
      RetiredBooked(t, k, n - 1);
    }
  }

  lemma AbandonNoted(t: TS, k: Key, now: Time)
    requires k in t.s.users && Started(t.s.users[k], now)
    ensures Noted(t.s, Abandon(t, k).s, k, now, 0)
  {
    hide Books, RetireSlots, Stored;
    RetiredBooked(TS(t.s, []), k, |SLOTS|);
    NotedBooked(t.s, Abandon(t, k).s, k, now, 0);
  }

  lemma TurnNoted(t: TS, k: Key, now: Time, champion: Faction)
    requires k in t.s.users && Started(t.s.users[k], now) && k in RunnerStep(t, k, now, champion).s.users
    ensures Noted(t.s, RunnerStep(t, k, now, champion).s, k, now, TurnAward(t, k, now, champion))
  {
    hide Books, Abandon, PassiveStep, UpkeepStep, StreakAmount, IceAmount, StreakStep, DriftStep;
    var p := t.s.users[k];
    if OfflineLonger(p, now, t.s.rules.artifactRelease) {
      AbandonNoted(t, k, now);
    } else if p.connected {
      var u := PassiveStep(t, k, now, champion);
      PassiveNoted(t, k, now, champion);
      UpkeepNoted(u, k, now);
      NotedThrough(t.s, u.s, UpkeepStep(u, k).s, k, now, TurnAward(t, k, now, champion), 0);
    } else {
      NotedBooked(t.s, t.s, k, now, 0);
    }
  }

  /** The walk up to the runner's own turn. */
  function Until(order: seq<Key>, k: Key): seq<Key> {
    if order == [] then []
    else
      var rest := order[..|order| - 1];
      if order[|order| - 1] == k then rest else Until(rest, k)
  }

  /** What the walk brings the runner: its own turn, once. */
  function WalkAward(t: TS, order: seq<Key>, now: Time, champion: Faction, k: Key): int {
    var u := RunnerSteps(t, Until(order, k), now, champion);
    if k in u.s.users then TurnAward(u, k, now, champion) else 0
  }

  lemma {:induction false} WalkElsewhere(t: TS, order: seq<Key>, now: Time, champion: Faction, k: Key)
    requires Kept(t.s, {}) && k !in order
    ensures var u := RunnerSteps(t, order, now, champion);
            Kept(u.s, {}) && RowOf(u.s.users, k) == RowOf(t.s.users, k) && u.s.rules == t.s.rules
  {
    hide RunnerStep, Kept;
    if order != [] {
      var u := RunnerSteps(t, order[..|order| - 1], now, champion);
      WalkElsewhere(t, order[..|order| - 1], now, champion, k);
      Ticks.RunnerStepKeeps(u, order[|order| - 1], now, champion);
    }
  }

  lemma {:induction false} WalkNoted(t: TS, order: seq<Key>, now: Time, champion: Faction, k: Key)
    requires Kept(t.s, {}) && k in t.s.users && Started(t.s.users[k], now) && k in order
    requires forall i, j :: 0 <= i < j < |order| ==> order[i] != order[j]
    requires k in RunnerSteps(t, order, now, champion).s.users
    ensures Noted(t.s, RunnerSteps(t, order, now, champion).s, k, now, WalkAward(t, order, now, champion, k))
  {
    hide Books, RunnerStep, TurnAward, Kept, Booked;
    var rest, j := order[..|order| - 1], order[|order| - 1];
    var u := RunnerSteps(t, rest, now, champion);
    assert order == rest + [j];
    if j == k {
      WalkElsewhere(t, rest, now, champion, k);
      TurnNoted(u, k, now, champion);
    } else {
      Ticks.RunnerStepsKeep(t, rest, now, champion);
      Ticks.RunnerStepKeeps(u, j, now, champion);
      var v := RunnerStep(u, j, now, champion);
      assert RowOf(v.s.users, k) == RowOf(u.s.users, k);
      WalkNoted(t, rest, now, champion, k);
      StillNoted(u.s, v.s, k, now);
      NotedThrough(t.s, u.s, v.s, k, now, WalkAward(t, rest, now, champion, k), 0);
    }
  }

  lemma StillNoted(s: State, t: State, k: Key, now: Time)
    requires k in s.users && k in t.users && t.users[k] == s.users[k] && t.rules == s.rules && Started(s.users[k], now)
    ensures Noted(s, t, k, now, 0)
  {
    hide Books;
    NotedBooked(s, t, k, now, 0);
  }

  // ---- Collisions ----

  function WonAmount(p: Runner, kind: nat, r: Rules): int {
    var gain := Max(30, LevelDuration(r, p.level) / 20);
    if kind == 1 then gain * 2 else if kind == 2 then Max(15, gain / 2) else gain
  }

  function LostAmount(p: Runner, kind: nat, r: Rules): int {
    var loss := CollisionLoss(p, Max(20, LevelDuration(r, p.level) / 24));
    if kind == 1 then Max(15, loss / 2) else if kind == 2 then loss * 2 else loss
  }

  function BlowsAward(s: State, winner: Key, loser: Key, k: Key): int
    requires winner in s.users && loser in s.users
  {
    var kind := Draw(Rest(s.rng), 4);
    if k == winner then WonAmount(s.users[winner], kind, s.rules)
    else if k == loser then -LostAmount(s.users[loser], kind, s.rules)
    else 0
  }

  /** From `s` to `t` the runner at `k` only moved by `award` on its meter. */
  ghost predicate Moved(s: State, t: State, k: Key, award: int) {
    t.rules == s.rules && t.users.Keys == s.users.Keys && k in s.users && Booked(s.users[k], t.users[k], award)
  }

  lemma BlowsMoved(s: State, w: Key, l: Key, k: Key)
    requires w in s.users && l in s.users && w != l && k in s.users
    ensures Moved(s, Blows(s, w, l), k, BlowsAward(s, w, l, k))
  {
    hide LevelDuration, Max, CollisionLoss, DamagedDrone, AppendUnique, ClampHeat;
  }

  lemma TheftMoved(s: State, w: Key, l: Key, k: Key)
    requires w in s.users && l in s.users && w != l && k in s.users
    ensures Moved(s, Theft(s, w, l), k, 0)
  {
    hide StandardItem, TheftSlot, UniqueSlots, Max, Transfer;
  }

  lemma SeparateMoved(s: State, w: Key, l: Key, now: Time, k: Key)
    requires w in s.users && l in s.users && w != l && k in s.users
    ensures Moved(s, Separate(s, w, l, now), k, 0)
  {
    hide Stored;
  }

  lemma AftermathMoved(t: TS, w: Key, l: Key, now: Time, round: Option<nat>, k: Key)
    requires w in t.s.users && l in t.s.users && w != l && k in t.s.users
    ensures Moved(t.s, Aftermath(t, w, l, now, round).s, k, BlowsAward(t.s, w, l, k))
  {
    BlowsMoved(t.s, w, l, k);
    var s1 := Blows(t.s, w, l);
    TheftMoved(s1, w, l, k);
    SeparateMoved(Theft(s1, w, l), w, l, now, k);
    hide Blows, Theft, Separate, BlowsAward, TheftSlot, DisplayName;
  }

  function BoutAward(s: State, a: Key, b: Key, k: Key): int
    requires a in s.users && b in s.users && a != b
  {
    var s1 := RecordBout(s, a, b);
    var s2 := Skip(Skip(s1));
    if Upset(s1, a, b) then BlowsAward(s2, b, a, k) else BlowsAward(s2, a, b, k)
  }

  lemma BoutMoved(t: TS, a: Key, b: Key, now: Time, k: Key)
    requires a in t.s.users && b in t.s.users && a != b && k in t.s.users
    ensures Moved(t.s, Bout(t, a, b, now).s, k, BoutAward(t.s, a, b, k))
  {
    hide Upset, BlowsAward, Round, Aftermath;
    var s := RecordBout(t.s, a, b);
    var u := t.(s := Skip(Skip(s)));
    if Upset(s, a, b) {
      AftermathMoved(u, b, a, now, Round(s.users, a, b), k);
    } else {
      AftermathMoved(u, a, b, now, Round(s.users, a, b), k);
    }
  }

  function MeetAward(s: State, a: Key, poolOrder: seq<Key>, k: Key): int
    requires a in s.users
  {
    var pool := Pool(s.users, poolOrder, a);
    if pool == [] then 0
    else
      var (b, rng) := Opponent(s, pool, a);
      BoutAward(s.(rng := rng), a, b, k)
  }

  function CollisionAward(s: State, now: Time, order: seq<Key>, poolOrder: seq<Key>, k: Key): int {
    var due := CollisionDue(s.users, order, now);
    if due == [] then 0
    else
      var a := due[Draw(s.rng, |due|)];
      assert a in due;
      MeetAward(Skip(s), a, poolOrder, k)
  }

  lemma MeetMoved(t: TS, a: Key, now: Time, poolOrder: seq<Key>, k: Key)
    requires a in t.s.users && k in t.s.users
    ensures Moved(t.s, Meet(t, a, now, poolOrder).s, k, MeetAward(t.s, a, poolOrder, k))
  {
    hide Bout, BoutAward, Opponent;
    var pool := Pool(t.s.users, poolOrder, a);
    if pool != [] {
      var (b, rng) := Opponent(t.s, pool, a);
      BoutMoved(t.(s := t.s.(rng := rng)), a, b, now, k);
    }
  }

  lemma CollisionNoted(t: TS, now: Time, order: seq<Key>, poolOrder: seq<Key>, k: Key)
    requires k in t.s.users && Started(t.s.users[k], now)
    ensures Noted(t.s, CollisionStep(t, now, order, poolOrder).s, k, now, CollisionAward(t.s, now, order, poolOrder, k))
  {
    hide Meet, MeetAward, Books, CollisionDue;
    var due := CollisionDue(t.s.users, order, now);
    if due != [] {
      var a := due[Draw(t.s.rng, |due|)];
      assert a in due;
      MeetMoved(t.(s := Skip(t.s)), a, now, poolOrder, k);
    }
    NotedBooked(t.s, CollisionStep(t, now, order, poolOrder).s, k, now, CollisionAward(t.s, now, order, poolOrder, k));
  }

  // ---- The tick ----

  /** What the world's part of a tick awards or charges: contract, raid and city event, in that order. */
  function NewsAward(s: State, now: Time, ord: Orders, k: Key): int
    requires k in s.users
  {
    var t1 := SwapTick(TS(s.(pending := []), []), now);
    var t2 := ResolveContract(t1, now);
    var t4 := DropExpiry(ResolveRaid(t2, now, ord.raid), now);
    ContractAward(t1.s, now, k) + (if k in t2.s.users then RaidAward(t2.s, now, ord.raid, k) else 0)
    + if k in t4.s.users then CityAward(t4.s, now, ord.event, k) else 0
  }

  /** What the walk over the runners and the collision award or charge. */
  function RoundAward(t: TS, now: Time, ord: Orders, champion: Faction, k: Key): int {
    WalkAward(t, ord.runners, now, champion, k)
    + CollisionAward(RunnerSteps(t, ord.runners, now, champion).s, now, ord.due, ord.pool, k)
  }

  /** Everything a tick awards or charges the runner. */
  function TickAward(s: State, now: Time, ord: Orders, champion: Faction, k: Key): int
    requires k in s.users
  {
    var t := WorldSteps(TS(s.(pending := []), []), now, ord);
    NewsAward(s, now, ord, k) + RoundAward(t.(out := t.out + s.pending), now, ord, champion, k)
  }

  /** A participant's shares of a contract that is due. */
  function ContractAward(s: State, now: Time, k: Key): int {
    if ContractDue(s.world, now) && k in s.users
    then SettleAward(s.users[k], multiset(s.world.contract.value.participants)[k], ContractHeld(s), now, s.rules)
    else 0
  }

  lemma ContractNoted(t: TS, now: Time, k: Key)
    requires k in t.s.users && Started(t.s.users[k], now)
    ensures Noted(t.s, ResolveContract(t, now).s, k, now, ContractAward(t.s, now, k))
  {
    hide Books, SettleAll, SettleAward, ContractHeld;
    if ContractDue(t.s.world, now) {
      SettleAllBooks(t.s, t.s.world.contract.value.participants, ContractHeld(t.s), now, k);
    } else {
      StillNoted(t.s, t.s, k, now);
    }
  }

  /** The world's part of a tick neither adds nor removes runners. */
  lemma WorldKeys(s: State, now: Time, ord: Orders)
    requires Inv(s)
    ensures var t1 := SwapTick(TS(s.(pending := []), []), now);
            var t2 := ResolveContract(t1, now);
            var t4 := DropExpiry(ResolveRaid(t2, now, ord.raid), now);
            t2.s.users.Keys == s.users.Keys && t4.s.users.Keys == s.users.Keys
  {
    hide NextSwap, ResolveContract, ResolveRaid;
    var t1 := SwapTick(TS(s.(pending := []), []), now);
    var t2 := ResolveContract(t1, now);
    Ticks.SwapTickKeeps(TS(s.(pending := []), []), now);
    Ticks.ResolveContractKeeps(t1, now);
    Ticks.ResolveRaidKeeps(t2, now, ord.raid);
  }

  lemma WorldNoted(s: State, now: Time, ord: Orders, k: Key)
    requires Inv(s) && Walks(ord, s.users.Keys) && k in s.users && Started(s.users[k], now)
    ensures Noted(s, WorldSteps(TS(s.(pending := []), []), now, ord).s, k, now, NewsAward(s, now, ord, k))
  {
    hide Books, NextSwap, ResolveContract, ResolveRaid, CityEventTick, ContractAward, RaidAward, CityAward, Inv;
    WorldKeys(s, now, ord);
    var t1 := SwapTick(TS(s.(pending := []), []), now);
    var t2 := ResolveContract(t1, now);
    StillNoted(s, t1.s, k, now);
    ContractNoted(t1, now, k);
    RaidNoted(t2, now, ord.raid, k);
    var t3 := ResolveRaid(t2, now, ord.raid);
    var t4 := DropExpiry(t3, now);
    StillNoted(t3.s, t4.s, k, now);
    CityNoted(t4, now, ord.event, k);
    var c, d := ContractAward(t1.s, now, k), RaidAward(t2.s, now, ord.raid, k);
    NotedThrough(s, t1.s, t2.s, k, now, 0, c);
    NotedThrough(s, t2.s, t3.s, k, now, c, d);
    NotedThrough(s, t3.s, t4.s, k, now, c + d, 0);
    NotedThrough(s, t4.s, CityEventTick(t4, now, ord.event).s, k, now, c + d, CityAward(t4.s, now, ord.event, k));
  }

  lemma RoundNoted(t: TS, now: Time, ord: Orders, champion: Faction, k: Key)
    requires Kept(t.s, {}) && Enumerates(ord.runners, t.s.users.Keys) && k in t.s.users && Started(t.s.users[k], now)
    requires k in CollisionStep(RunnerSteps(t, ord.runners, now, champion), now, ord.due, ord.pool).s.users
    ensures Noted(t.s, CollisionStep(RunnerSteps(t, ord.runners, now, champion), now, ord.due, ord.pool).s, k, now,
                  RoundAward(t, now, ord, champion, k))
  {
    hide Books, RunnerSteps, CollisionStep, WalkAward, CollisionAward, Kept;
    var u := RunnerSteps(t, ord.runners, now, champion);
    Ticks.RunnerStepsKeep(t, ord.runners, now, champion);
    Ticks.CollisionKeeps(u, now, ord.due, ord.pool);
    WalkNoted(t, ord.runners, now, champion, k);
    CollisionNoted(u, now, ord.due, ord.pool, k);
    NotedThrough(t.s, u.s, CollisionStep(u, now, ord.due, ord.pool).s, k, now,
                 WalkAward(t, ord.runners, now, champion, k), CollisionAward(u.s, now, ord.due, ord.pool, k));
  }

  /** A tick changes a runner's lifetime progress by the seconds credited and the awards of its steps alone. */
  lemma TickNoted(s: State, now: Time, ord: Orders, champion: Faction, k: Key)
    requires Inv(s) && Walks(ord, s.users.Keys) && k in s.users && Started(s.users[k], now)
    requires k in Tick(s, now, ord, champion).users
    ensures Noted(s, Tick(s, now, ord, champion), k, now, TickAward(s, now, ord, champion, k))
  {
    hide Books, WorldSteps, RunnerSteps, CollisionStep, NewsAward, RoundAward;
    var t := WorldSteps(TS(s.(pending := []), []), now, ord);
    var u := t.(out := t.out + s.pending);
    Ticks.WorldStepsKeep(TS(s.(pending := []), []), now, ord);
    WorldNoted(s, now, ord, k);
    RoundNoted(u, now, ord, champion, k);
    var v := CollisionStep(RunnerSteps(u, ord.runners, now, champion), now, ord.due, ord.pool).s;
    NotedThrough(s, t.s, v, k, now, NewsAward(s, now, ord, k), RoundAward(u, now, ord, champion, k));
    StillNoted(v, Tick(s, now, ord, champion), k, now);
    NotedThrough(s, v, Tick(s, now, ord, champion), k, now, TickAward(s, now, ord, champion, k), 0);
  }
}
