/** Ghost Protocol: every full day on the link is paid once, over whole runs. */
module Streaks {
  import opened Grid
  import opened Progression
  import opened StoreRows
  import opened Machine
  import opened Invariants
  import opened Upheavals
  import Ledger
  import Ticks

  // ---- One payment ----

  /** Full days on the link. */
  function DaysHeld(p: Runner, now: Time): int { (now - p.streakSince) / DAY }

  /** A running streak has been held for more days than were paid for. */
  predicate Owed(p: Runner, now: Time) { p.streakSince != 0 && DaysHeld(p, now) > p.streakDays }

  /**
   A running streak is announced and paid exactly if a day more has been held than was paid for, and afterwards all
   days held are paid for. A streak that is not running starts, and pays nothing.
   */
  lemma DaysArePaid(t: TS, k: Key, now: Time)
    requires k in t.s.users
    ensures var p, u := t.s.users[k], StreakStep(t, k, now);
            k in u.s.users && var q := u.s.users[k];
            && (u.out != t.out <==> Owed(p, now))
            && (u.out != t.out ==> u.out == t.out + [GhostProtocol(DisplayName(p), DaysHeld(p, now))]
                                   && q.progress >= p.progress + 120 && q.streakDays == DaysHeld(p, now))
            && (u.out == t.out ==> q.progress == p.progress && q.streakDays == p.streakDays)
            && q.streakSince == (if p.streakSince == 0 then now else p.streakSince)
            && (p.streakSince != 0 ==> q.streakDays >= DaysHeld(p, now))
            && q.connected == p.connected && q.nick == p.nick && q.alias == p.alias
  {
    hide LevelDuration, DisplayName;
  }

  /** Until another full day is held, asking again pays nothing. */
  lemma PaidOnce(t: TS, k: Key, now: Time, later: Time)
    requires k in t.s.users && t.s.users[k].streakSince != 0 && k in StreakStep(t, k, now).s.users
    requires DaysHeld(t.s.users[k], later) <= DaysHeld(t.s.users[k], now)
    ensures var u := StreakStep(t, k, now);
            var v := StreakStep(u, k, later);
            v.out == u.out && k in v.s.users && v.s.users[k].progress == u.s.users[k].progress
  {
    hide StreakStep;
    DaysArePaid(t, k, now);
    DaysArePaid(StreakStep(t, k, now), k, later);
  }

  // ---- What leaves streaks alone ----

  /** Streak, link and names are the same. */
  predicate Steady(p: Runner, q: Runner) {
    && q.streakSince == p.streakSince && q.streakDays == p.streakDays
    && q.connected == p.connected && q.nick == p.nick && q.alias == p.alias
  }

  /** The runner at `k` stays, with the streak it had. */
  ghost predicate Holding(s: State, t: State, k: Key) {
    k in s.users && k in t.users && Steady(s.users[k], t.users[k])
  }

  lemma AdvanceSteady(p: Runner, now: Time, r: Tuning)
    ensures Steady(p, Advance(p, now, r))
  {
    hide LevelLoop;
  }

  // ---- A runner's own turn ----

  lemma LootHolds(s: State, k: Key, exclude: Option<ItemName>)
    requires k in s.users
    ensures Holding(s, RareLoot(s, k, exclude), k)
  {
    hide FreshArtifact, Unclaimed, RareLootChance;
  }

  lemma IceSteady(p: Runner, scarred: bool, r: Rules)
    ensures Steady(p, IceWon(p, scarred, r)) && Steady(p, IceLost(p, scarred, r))
  {
    hide LevelDuration, StanceReward, StanceHeat, AppendUnique;
  }

  lemma EncounterHolds(t: TS, k: Key, now: Time, champion: Faction)
    requires k in t.s.users
    ensures Holding(t.s, EncounterStep(t, k, now, champion).s, k)
  {
    hide RareLoot, LootSlot, IceWinChance, IceWon, IceLost, DisplayName, Advance, LevelMsgs, Queue;
    if Due(t.s.users[k].nextEncounterAt, now) {
      var s, p := t.s, t.s.users[k];
      var rng := Rest(s.rng);
      IceSteady(p, Draw(rng, 25) == 0, s.rules);
      IceSteady(p, Draw(rng, 12) == 0, s.rules);
      if Draw(s.rng, 100) < IceWinChance(p, champion) {
        LootHolds(SetAt(s, k, IceWon(p, Draw(rng, 25) == 0, s.rules)).(rng := Rest(rng)), k, None);
      }
      RearmHolds(Encounter(t, k, champion).s, k, now);
    }
  }

  lemma RearmHolds(s: State, k: Key, now: Time)
    requires k in s.users
    ensures Holding(s, Rearm(s, k, now), k)
  {
    hide Advance, LevelMsgs, Queue;
    AdvanceSteady(Rearmed(s.users[k], now, s.rules), now, s.rules);
  }

  lemma {:induction false} BurnsHold(t: TS, k: Key, n: nat)
    requires k in t.s.users && n <= |SLOTS|
    ensures Holding(t.s, BurnSlots(t, k, n).s, k)
  {
    hide RareLoot, LootSlot, StandardItem, DisplayName;
    if n > 0 {
      BurnsHold(t, k, n - 1);
      var u, slot := BurnSlots(t, k, n - 1), SLOTS[n - 1];
      if BurnsOut(u.s.users[k], slot) {
        LootHolds(RetireAt(u.s, k, slot), k, Some(u.s.users[k].equipment[slot].name));
      }
    }
  }

  lemma {:induction false} RetiresHold(t: TS, k: Key, n: nat)
    requires k in t.s.users && n <= |SLOTS|
    ensures Holding(t.s, RetireSlots(t, k, n).s, k)
  {
    hide StandardItem, DisplayName;
    if n > 0 { RetiresHold(t, k, n - 1); }
  }

  /** The state in which the runner's streak is looked at, on its turn. */
  function Turned(t: TS, k: Key, now: Time): TS
    requires k in t.s.users
  {
    t.(s := AdvanceAt(t.s, k, now))
  }

  /** The runner's turn announces another day. */
  predicate TurnPays(t: TS, k: Key, now: Time) {
    k in t.s.users && t.s.users[k].connected && StreakStep(Turned(t, k, now), k, now).out != Turned(t, k, now).out
  }

  /** What a tick may do to a streak: pay for another day, or let it start. */
  predicate Streaked(p: Runner, q: Runner, now: Time, pays: bool) {
    if pays then
      p.connected && Owed(p, now) && Steady(p.(streakDays := DaysHeld(p, now)), q)
    else
      (p.connected ==> !Owed(p, now)) && (Steady(p, q) || (p.streakSince == 0 && Steady(p.(streakSince := now), q)))
  }

  /** The runner is told, by the name it goes by, how many days it has held. */
  predicate Thanked(out: seq<Msg>, p: Runner, now: Time) { GhostProtocol(DisplayName(p), DaysHeld(p, now)) in out }

  lemma StreakTurn(t: TS, k: Key, now: Time)
    requires k in t.s.users && t.s.users[k].connected
    ensures var u := StreakStep(Turned(t, k, now), k, now);
            && k in u.s.users && Streaked(t.s.users[k], u.s.users[k], now, TurnPays(t, k, now))
            && (TurnPays(t, k, now) ==> Thanked(u.out, t.s.users[k], now))
  {
    hide StreakStep, Advance, LevelMsgs, Queue;
    AdvanceSteady(t.s.users[k], now, t.s.rules);
    DaysArePaid(Turned(t, k, now), k, now);
  }

  lemma DriftHolds(t: TS, k: Key, now: Time)
    requires k in t.s.users
    ensures Holding(t.s, DriftStep(t, k, now).s, k)
  {
    hide OtherDistrict, DisplayName;
  }

  lemma UpkeepHolds(t: TS, k: Key)
    requires k in t.s.users
    ensures Holding(t.s, UpkeepStep(t, k).s, k)
  {
    hide BurnSlots, Stored;
    BurnsHold(TakePending(t), k, |SLOTS|);
  }

  lemma {:induction false} BurnsTell(t: TS, k: Key, n: nat)
    requires k in t.s.users && n <= |SLOTS|
    ensures t.out <= BurnSlots(t, k, n).out
  {
    hide RareLoot, LootSlot, RetireAt, BurnsOut, DisplayName;
    if n > 0 { BurnsTell(t, k, n - 1); }
  }

  /** What follows in the turn only adds announcements. */
  lemma TurnTells(t: TS, k: Key, now: Time, champion: Faction)
    requires k in t.s.users && k in DriftStep(t, k, now).s.users
    requires k in EncounterStep(DriftStep(t, k, now), k, now, champion).s.users
    ensures t.out <= UpkeepStep(EncounterStep(DriftStep(t, k, now), k, now, champion), k).out
  {
    hide BurnSlots, OtherDistrict, DisplayName, RareLoot, LootSlot, IceWinChance, IceWon, IceLost, Rearm, Stored;
    BurnsTell(TakePending(EncounterStep(DriftStep(t, k, now), k, now, champion)), k, |SLOTS|);
  }

  lemma TurnStreaks(t: TS, k: Key, now: Time, champion: Faction)
    requires k in t.s.users && k in RunnerStep(t, k, now, champion).s.users
    ensures Streaked(t.s.users[k], RunnerStep(t, k, now, champion).s.users[k], now, TurnPays(t, k, now))
    ensures TurnPays(t, k, now) ==> Thanked(RunnerStep(t, k, now, champion).out, t.s.users[k], now)
  {
    hide StreakStep, DriftStep, EncounterStep, UpkeepStep, RetireSlots, Advance, LevelMsgs, Queue, Stored,
      DisplayName;
    if OfflineLonger(t.s.users[k], now, t.s.rules.artifactRelease) {
      RetiresHold(TS(t.s, []), k, |SLOTS|);
    } else if t.s.users[k].connected {
      var u := StreakStep(Turned(t, k, now), k, now);
      StreakTurn(t, k, now);
      DriftHolds(u, k, now);
      var v := DriftStep(u, k, now);
      EncounterHolds(v, k, now, champion);
      UpkeepHolds(EncounterStep(v, k, now, champion), k);
      TurnTells(u, k, now, champion);
    }
  }

  // ---- The walk and the collision ----

  lemma {:induction false} WalkStreaks(t: TS, order: seq<Key>, now: Time, champion: Faction, k: Key)
    requires Kept(t.s, {}) && k in t.s.users && k in order && Distinct(order)
    requires k in RunnerSteps(t, order, now, champion).s.users
    ensures Streaked(t.s.users[k], RunnerSteps(t, order, now, champion).s.users[k], now,
                     TurnPays(RunnerSteps(t, Ledger.Until(order, k), now, champion), k, now))
    ensures TurnPays(RunnerSteps(t, Ledger.Until(order, k), now, champion), k, now) ==>
              Thanked(RunnerSteps(t, order, now, champion).out, t.s.users[k], now)
  {
    hide RunnerStep, Kept, TurnPays, Streaked, DisplayName;
    var rest, j := order[..|order| - 1], order[|order| - 1];
    var u := RunnerSteps(t, rest, now, champion);
    assert order == rest + [j];
    if j == k {
      Ledger.WalkElsewhere(t, rest, now, champion, k);
      TurnStreaks(u, k, now, champion);
    } else {
      Ticks.RunnerStepsKeep(t, rest, now, champion);
      Ticks.RunnerStepKeeps(u, j, now, champion);
      assert RowOf(RunnerStep(u, j, now, champion).s.users, k) == RowOf(u.s.users, k);
      WalkStreaks(t, rest, now, champion, k);
    }
  }

  lemma BlowsHold(s: State, w: Key, l: Key, k: Key)
    requires w in s.users && l in s.users && w != l && k in s.users
    ensures Holding(s, Blows(s, w, l), k) && Blows(s, w, l).users.Keys == s.users.Keys
  {
    hide LevelDuration, Max, CollisionLoss, DamagedDrone, AppendUnique, ClampHeat;
  }

  lemma TheftHolds(s: State, w: Key, l: Key, k: Key)
    requires w in s.users && l in s.users && w != l && k in s.users
    ensures Holding(s, Theft(s, w, l), k) && Theft(s, w, l).users.Keys == s.users.Keys
  {
    hide StandardItem, UniqueSlots, TheftSlot, Max, Transfer;
  }

  lemma SeparateHolds(s: State, w: Key, l: Key, now: Time, k: Key)
    requires w in s.users && l in s.users && k in s.users
    ensures Holding(s, Separate(s, w, l, now), k)
  {
    hide Stored;
  }

  lemma BoutHolds(t: TS, a: Key, b: Key, now: Time, k: Key)
    requires a in t.s.users && b in t.s.users && a != b && k in t.s.users
    ensures Holding(t.s, Bout(t, a, b, now).s, k)
  {
    hide Blows, Theft, Separate, Upset, Round, TheftSlot, DisplayName;
    var s := Skip(Skip(RecordBout(t.s, a, b)));
    var (w, l) := if Upset(RecordBout(t.s, a, b), a, b) then (b, a) else (a, b);
    BlowsHold(s, w, l, k);
    TheftHolds(Blows(s, w, l), w, l, k);
    SeparateHolds(Theft(Blows(s, w, l), w, l), w, l, now, k);
  }

  lemma CollisionHolds(t: TS, now: Time, order: seq<Key>, poolOrder: seq<Key>, k: Key)
    requires k in t.s.users
    ensures Holding(t.s, CollisionStep(t, now, order, poolOrder).s, k)
  {
    hide Bout, Opponent, CollisionDue;
    var due := CollisionDue(t.s.users, order, now);
    if due != [] {
      var a := due[Draw(t.s.rng, |due|)];
      assert a in due;
      var s := Skip(t.s);
      var pool := Pool(s.users, poolOrder, a);
      if pool != [] {
        var (b, rng) := Opponent(s, pool, a);
        BoutHolds(t.(s := s.(rng := rng)), a, b, now, k);
      }
    }
  }

  // ---- The tick ----

  /** The tick announces another day for the runner at `k`. */
  predicate Pays(s: State, now: Time, ord: Orders, champion: Faction, k: Key) {
    var t := WorldSteps(TS(s.(pending := []), []), now, ord);
    TurnPays(RunnerSteps(t.(out := t.out + s.pending), Ledger.Until(ord.runners, k), now, champion), k, now)
  }

  /** The runner still there after the collision was there before it. */
  lemma CollisionAdds(t: TS, now: Time, order: seq<Key>, poolOrder: seq<Key>)
    requires Kept(t.s, {})
    ensures CollisionStep(t, now, order, poolOrder).s.users.Keys == t.s.users.Keys
    ensures t.out <= CollisionStep(t, now, order, poolOrder).out
  {
    hide CollisionStep;
    Ticks.CollisionKeeps(t, now, order, poolOrder);
  }

  lemma StreakedAround(p: Runner, q: Runner, r: Runner, v: Runner, now: Time, pays: bool)
    requires Steady(p, q) && Streaked(q, r, now, pays) && Steady(r, v)
    ensures Streaked(p, v, now, pays)
  {
  }

  /** Walk and collision. */
  lemma MeetStreaks(u: TS, ord: Orders, now: Time, champion: Faction, k: Key)
    requires Kept(u.s, {}) && Enumerates(ord.runners, u.s.users.Keys) && k in u.s.users
    requires k in CollisionStep(RunnerSteps(u, ord.runners, now, champion), now, ord.due, ord.pool).s.users
    ensures Streaked(u.s.users[k],
                     CollisionStep(RunnerSteps(u, ord.runners, now, champion), now, ord.due, ord.pool).s.users[k], now,
                     TurnPays(RunnerSteps(u, Ledger.Until(ord.runners, k), now, champion), k, now))
    ensures TurnPays(RunnerSteps(u, Ledger.Until(ord.runners, k), now, champion), k, now) ==>
              Thanked(CollisionStep(RunnerSteps(u, ord.runners, now, champion), now, ord.due, ord.pool).out,
                      u.s.users[k], now)
  {
    hide RunnerSteps, CollisionStep, TurnPays, Kept, Streaked, DisplayName;
    var v := RunnerSteps(u, ord.runners, now, champion);
    Ticks.RunnerStepsKeep(u, ord.runners, now, champion);
    CollisionAdds(v, now, ord.due, ord.pool);
    WalkStreaks(u, ord.runners, now, champion, k);
    CollisionHolds(v, now, ord.due, ord.pool, k);
    StreakedAround(u.s.users[k], u.s.users[k], v.s.users[k],
                   CollisionStep(v, now, ord.due, ord.pool).s.users[k], now,
                   TurnPays(RunnerSteps(u, Ledger.Until(ord.runners, k), now, champion), k, now));
  }

  /** Over a tick the streak is paid for another day, and the runner told, or it starts, or it stays as it was. */
  lemma TickStreaks(s: State, now: Time, ord: Orders, champion: Faction, k: Key)
    requires Inv(s) && Walks(ord, s.users.Keys) && k in s.users && k in Tick(s, now, ord, champion).users
    ensures Streaked(s.users[k], Tick(s, now, ord, champion).users[k], now, Pays(s, now, ord, champion, k))
    ensures Pays(s, now, ord, champion, k) ==> Thanked(TickSteps(s, now, ord, champion).out, s.users[k], now)
  {
    hide WorldSteps, RunnerSteps, CollisionStep, TurnPays, Kept, WorldSaved, LastOf, StoredWorld, Streaked;
    var t := WorldSteps(TS(s.(pending := []), []), now, ord);
    WorldKept(s, now, ord);
    WorldKeys(s, now, ord);
    WorldSpares(s, now, ord, k);
    MeetStreaks(t.(out := t.out + s.pending), ord, now, champion, k);
    var q := Tick(s, now, ord, champion).users[k];
    StreakedAround(s.users[k], t.s.users[k], q, q, now, Pays(s, now, ord, champion, k));
  }
}
