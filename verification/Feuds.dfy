/** Collision counts stay even between runners as long as nobody changes or loses its identity. */
module Feuds {
  import opened Grid
  import opened Progression
  import opened StoreRows
  import opened Machine
  import opened Invariants
  import opened Rivals
  import opened Runs
  import Accounts
  import Economy
  import Operations
  import Ranking
  import Restarts
  import Roster
  import Ticks

  /** Each counts as many bouts against the other. */
  ghost predicate Even(users: map<Key, Runner>) {
    forall a, b :: a in users && b in users ==> Bouts(users[a].rivals, b) == Bouts(users[b].rivals, a)
  }

  /** Nobody counts bouts against a stranger. */
  ghost predicate Acquainted(users: map<Key, Runner>) {
    forall a, b :: a in users && b in users[a].rivals ==> b in users
  }

  /** Everybody is still there with the same counts, and newcomers have none. */
  ghost predicate Peers(before: map<Key, Runner>, after: map<Key, Runner>) {
    && (forall k :: k in before ==> k in after && after[k].rivals == before[k].rivals)
    && forall k :: k in after && k !in before ==> after[k].rivals == map[]
  }

  lemma PeersStayEven(before: map<Key, Runner>, after: map<Key, Runner>)
    requires Even(before) && Acquainted(before) && Peers(before, after)
    ensures Even(after) && Acquainted(after)
  {
    forall a, b | a in after && b in after ensures Bouts(after[a].rivals, b) == Bouts(after[b].rivals, a) {
      if a in before && b in before {
        assert Bouts(before[a].rivals, b) == Bouts(before[b].rivals, a);
      }
    }
  }

  lemma PeersThrough(a: map<Key, Runner>, b: map<Key, Runner>, c: map<Key, Runner>)
    requires Peers(a, b) && Peers(b, c)
    ensures Peers(a, c)
  {
  }

  // ---- A bout ----

  lemma Counted(p: Runner, rival: Key, k: Key)
    ensures Bouts(CountBout(p, rival).rivals, k) == Bouts(p.rivals, k) + if k == rival then 1 else 0
    ensures k in CountBout(p, rival).rivals <==> k in p.rivals || k == rival
  {
  }

  /** Recording a bout keeps counts even. */
  lemma RecordStaysEven(s: State, a: Key, b: Key)
    requires Even(s.users) && Acquainted(s.users) && a in s.users && b in s.users && a != b
    ensures Even(RecordBout(s, a, b).users) && Acquainted(RecordBout(s, a, b).users)
  {
    hide CountBout, Bouts;
    var users := RecordBout(s, a, b).users;
    forall i, j | i in users && j in users ensures Bouts(users[i].rivals, j) == Bouts(users[j].rivals, i) {
      assert Bouts(s.users[i].rivals, j) == Bouts(s.users[j].rivals, i);
      Counted(s.users[a], b, i);
      Counted(s.users[a], b, j);
      Counted(s.users[b], a, i);
      Counted(s.users[b], a, j);
    }
    forall i, j | i in users && j in users[i].rivals ensures j in users {
      Counted(s.users[a], b, j);
      Counted(s.users[b], a, j);
    }
  }

  /**
   With even counts a collision is a rivalry exactly if each is the one the other has met most, and then both
   call it the same round.
   */
  lemma RivalryIsMutual(users: map<Key, Runner>, a: Key, b: Key)
    requires Even(users) && a in users && b in users
    ensures Rivalry(users, a, b) <==> IsTop(users[a].rivals, b) && IsTop(users[b].rivals, a)
    ensures Rivalry(users, a, b) <==> Rivalry(users, b, a)
    ensures Round(users, a, b) == Round(users, b, a)
    ensures Round(users, a, b).Some? ==> Round(users, a, b).value >= RIVALRY_BOUTS
  {
    if IsTop(users[a].rivals, b) { TopIs(users[a].rivals, b); }
    if IsTop(users[b].rivals, a) { TopIs(users[b].rivals, a); }
  }

  // ---- One runner changes, with the counts it had ----

  lemma AdvancePeers(p: Runner, now: Time, r: Tuning)
    ensures Advance(p, now, r).rivals == p.rivals
  {
    hide LevelLoop;
  }

  // ---- The tick ----

  lemma {:induction false} SettlePeers(s: State, team: seq<Key>, success: bool, now: Time)
    ensures Peers(s.users, SettleAll(s, team, success, now).users)
  {
    hide Advance, LevelMsgs, Queue, Stored, LevelDuration;
    if team != [] {
      SettlePeers(s, team[..|team| - 1], success, now);
      var s1, k := SettleAll(s, team[..|team| - 1], success, now), team[|team| - 1];
      if k in s1.users {
        AdvancePeers(s1.users[k], now, s1.rules);
      }
    }
  }

  lemma {:induction false} CallPeers(s: State, order: seq<Key>, now: Time)
    ensures Peers(s.users, AdvanceTeam(s, order, now).users)
  {
    hide Advance, LevelMsgs, Queue;
    if order != [] {
      CallPeers(s, order[..|order| - 1], now);
      var s1, k := AdvanceTeam(s, order[..|order| - 1], now), order[|order| - 1];
      if k in s1.users {
        AdvancePeers(s1.users[k], now, s1.rules);
      }
    }
  }

  lemma {:induction false} PayPeers(s: State, team: seq<Key>, won: bool)
    requires forall k <- team :: k in s.users
    ensures Peers(s.users, PayTeam(s, team, won).users)
  {
    hide Stored, LevelDuration;
    if team != [] {
      PayPeers(s, team[..|team| - 1], won);
    }
  }

  lemma RaidPeers(t: TS, now: Time, order: seq<Key>)
    ensures Peers(t.s.users, ResolveRaid(t, now, order).s.users)
  {
    hide AdvanceTeam, PayTeam, ConnectedIn, TeamWins;
    if t.s.world.raid.Some? && now >= t.s.world.raid.value {
      var s0 := t.s.(world := t.s.world.(raid := None));
      CallPeers(s0, order, now);
      var s1 := AdvanceTeam(s0, order, now);
      var team := ConnectedIn(s1.users, order);
      if team != [] {
        PayPeers(Skip(s1), team, TeamWins(s1, team));
      }
    }
  }

  lemma EventPeer(s: State, k: Key, event: CityEvent, now: Time)
    ensures Peers(s.users, EventAt(s, k, event, now).users)
  {
    hide Advance, LevelMsgs, Queue, Stored, ProgressChange, Overclocked;
    if k in s.users {
      AdvancePeers(s.users[k], now, s.rules);
    }
  }

  lemma {:induction false} EventPeers(s: State, order: seq<Key>, event: CityEvent, now: Time)
    ensures Peers(s.users, EventAll(s, order, event, now).users)
  {
    hide EventAt;
    if order != [] {
      EventPeers(s, order[..|order| - 1], event, now);
      EventPeer(EventAll(s, order[..|order| - 1], event, now), order[|order| - 1], event, now);
    }
  }

  lemma CityPeers(t: TS, now: Time, order: seq<Key>)
    ensures Peers(t.s.users, CityEventTick(t, now, order).s.users)
  {
    hide EventAll, ConnectedIn, DropCode, StoredWorld;
    var (news, rng) := Pick(t.s, order);
    if news.Event? {
      EventPeers(t.s.(rng := rng), order, news.kind, now);
    }
  }

  lemma SwapPeers(t: TS, now: Time)
    ensures SwapTick(t, now).s.users == t.s.users
  {
    hide NextSwap;
  }

  lemma ContractPeers(t: TS, now: Time)
    ensures Peers(t.s.users, ResolveContract(t, now).s.users)
  {
    hide SettleAll, ContractHeld;
    if ContractDue(t.s.world, now) {
      SettlePeers(t.s, t.s.world.contract.value.participants, ContractHeld(t.s), now);
    }
  }

  lemma WorldPeers(t: TS, now: Time, ord: Orders)
    ensures Peers(t.s.users, WorldSteps(t, now, ord).s.users)
  {
    hide SwapTick, ResolveContract, ResolveRaid, CityEventTick;
    SwapPeers(t, now);
    var t1 := SwapTick(t, now);
    ContractPeers(t1, now);
    var t2 := ResolveContract(t1, now);
    RaidPeers(t2, now, ord.raid);
    CityPeers(DropExpiry(ResolveRaid(t2, now, ord.raid), now), now, ord.event);
  }

  /** Whoever is still there has the counts it had. */
  ghost predicate Remain(before: map<Key, Runner>, after: map<Key, Runner>) {
    forall k :: k in after ==> k in before && after[k].rivals == before[k].rivals
  }

  ghost predicate AllRemain(before: map<Key, Runner>, after: map<Key, Runner>) {
    after.Keys == before.Keys && Remain(before, after)
  }

  lemma LootPeers(s: State, k: Key, exclude: Option<ItemName>)
    requires k in s.users
    ensures AllRemain(s.users, RareLoot(s, k, exclude).users)
  {
    hide RareLoot, LootSlot, FreshArtifact;
    Economy.LootShape(s, k, exclude);
  }

  lemma IcePeers(p: Runner, scarred: bool, r: Rules)
    ensures IceWon(p, scarred, r).rivals == p.rivals && IceLost(p, scarred, r).rivals == p.rivals
  {
    hide LevelDuration, Max, StanceReward, StanceHeat, AppendUnique, ClampHeat;
  }

  lemma SetRemains(before: map<Key, Runner>, k: Key, q: Runner)
    requires k in before && q.rivals == before[k].rivals
    ensures AllRemain(before, before[k := q])
  {
  }

  lemma RemainThrough(a: map<Key, Runner>, b: map<Key, Runner>, c: map<Key, Runner>)
    requires AllRemain(a, b) && AllRemain(b, c)
    ensures AllRemain(a, c)
  {
  }

  lemma EncounterPeers(t: TS, k: Key, champion: Faction)
    requires k in t.s.users
    ensures AllRemain(t.s.users, Encounter(t, k, champion).s.users)
  {
    hide RareLoot, LootSlot, IceWinChance, IceWon, IceLost, DisplayName, AllRemain;
    var s, p := t.s, t.s.users[k];
    var rng := Rest(s.rng);
    IcePeers(p, Draw(rng, 25) == 0, s.rules);
    IcePeers(p, Draw(rng, 12) == 0, s.rules);
    if Draw(s.rng, 100) < IceWinChance(p, champion) {
      var s1 := SetAt(s, k, IceWon(p, Draw(rng, 25) == 0, s.rules)).(rng := Rest(rng));
      SetRemains(s.users, k, s1.users[k]);
      LootPeers(s1, k, None);
      RemainThrough(s.users, s1.users, RareLoot(s1, k, None).users);
    } else {
      SetRemains(s.users, k, IceLost(p, Draw(rng, 12) == 0, s.rules));
    }
  }

  lemma StreakPeers(t: TS, k: Key, now: Time)
    requires k in t.s.users
    ensures AllRemain(t.s.users, StreakStep(t, k, now).s.users)
  {
    hide LevelDuration, Max, DisplayName;
  }

  lemma DriftPeers(t: TS, k: Key, now: Time)
    requires k in t.s.users
    ensures AllRemain(t.s.users, DriftStep(t, k, now).s.users)
  {
    hide OtherDistrict, DisplayName;
  }

  lemma WanderPeers(t: TS, k: Key, now: Time)
    requires k in t.s.users
    ensures AllRemain(t.s.users, DriftStep(StreakStep(t.(s := AdvanceAt(t.s, k, now)), k, now), k, now).s.users)
  {
    hide Advance, LevelMsgs, Queue, StreakStep, DriftStep;
    var t1 := t.(s := AdvanceAt(t.s, k, now));
    AdvancePeers(t.s.users[k], now, t.s.rules);
    StreakPeers(t1, k, now);
    DriftPeers(StreakStep(t1, k, now), k, now);
  }

  lemma RearmPeers(s: State, k: Key, now: Time)
    requires k in s.users
    ensures AllRemain(s.users, Rearm(s, k, now).users)
  {
    hide Advance, LevelMsgs, Queue;
    AdvancePeers(Rearmed(s.users[k], now, s.rules), now, s.rules);
  }

  lemma PassivePeers(t: TS, k: Key, now: Time, champion: Faction)
    requires k in t.s.users
    ensures AllRemain(t.s.users, PassiveStep(t, k, now, champion).s.users)
  {
    hide Advance, StreakStep, DriftStep, Encounter, Rearm;
    StreakPeers(t.(s := AdvanceAt(t.s, k, now)), k, now);
    WanderPeers(t, k, now);
    var u := DriftStep(StreakStep(t.(s := AdvanceAt(t.s, k, now)), k, now), k, now);
    if Due(u.s.users[k].nextEncounterAt, now) {
      EncounterPeers(u, k, champion);
      RearmPeers(Encounter(u, k, champion).s, k, now);
    }
  }

  lemma {:induction false} BurnPeers(t: TS, k: Key, n: nat)
    requires k in t.s.users && n <= |SLOTS|
    ensures AllRemain(t.s.users, BurnSlots(t, k, n).s.users)
  {
    hide RareLoot, LootSlot, StandardItem, DisplayName;
    if n > 0 {
      BurnPeers(t, k, n - 1);
      var u, slot := BurnSlots(t, k, n - 1), SLOTS[n - 1];
      if BurnsOut(u.s.users[k], slot) {
        LootPeers(RetireAt(u.s, k, slot), k, Some(u.s.users[k].equipment[slot].name));
      }
    }
  }

  lemma RetirePeer(t: TS, k: Key, slot: Slot)
    requires k in t.s.users
    ensures AllRemain(t.s.users, RetireSlot(t, k, slot).s.users)
  {
    hide StandardItem, DisplayName;
  }

  lemma {:induction false} RetirePeers(t: TS, k: Key, n: nat)
    requires k in t.s.users && n <= |SLOTS|
    ensures AllRemain(t.s.users, RetireSlots(t, k, n).s.users)
  {
    hide RetireSlot;
    if n > 0 {
      RetirePeers(t, k, n - 1);
      RetirePeer(RetireSlots(t, k, n - 1), k, SLOTS[n - 1]);
    }
  }

  lemma RunnerStepPeers(t: TS, k: Key, now: Time, champion: Faction)
    ensures Remain(t.s.users, RunnerStep(t, k, now, champion).s.users)
  {
    hide PassiveStep, BurnSlots, RetireSlots, Stored;
    if k in t.s.users {
      var p := t.s.users[k];
      if OfflineLonger(p, now, t.s.rules.artifactRelease) {
        RetirePeers(TS(t.s, []), k, |SLOTS|);
      } else if p.connected {
        PassivePeers(t, k, now, champion);
        BurnPeers(TakePending(PassiveStep(t, k, now, champion)), k, |SLOTS|);
      }
    }
  }

  lemma {:induction false} WalkPeers(t: TS, order: seq<Key>, now: Time, champion: Faction)
    ensures Remain(t.s.users, RunnerSteps(t, order, now, champion).s.users)
  {
    hide RunnerStep;
    if order != [] {
      WalkPeers(t, order[..|order| - 1], now, champion);
      RunnerStepPeers(RunnerSteps(t, order[..|order| - 1], now, champion), order[|order| - 1], now, champion);
    }
  }

  lemma BlowsPeers(s: State, w: Key, l: Key)
    requires w in s.users && l in s.users && w != l
    ensures AllRemain(s.users, Blows(s, w, l).users)
  {
    hide LevelDuration, Max, CollisionLoss, DamagedDrone, AppendUnique, ClampHeat;
  }

  lemma StealPeers(s: State, w: Key, l: Key, slot: Slot)
    requires w in s.users && l in s.users && w != l && Holds(s.users[l], slot)
    ensures AllRemain(s.users, StealAt(s, w, l, slot).users)
  {
    hide StandardItem, Max, Transfer;
  }

  lemma TheftPeers(s: State, w: Key, l: Key)
    requires w in s.users && l in s.users && w != l
    ensures AllRemain(s.users, Theft(s, w, l).users)
  {
    hide StealAt, TheftSlot, UniqueSlots;
    var hit := TheftSlot(s, l);
    if hit.Some? { StealPeers(Skip(Skip(s)), w, l, hit.value); }
  }

  lemma SeparatePeers(s: State, w: Key, l: Key, now: Time)
    requires w in s.users && l in s.users && w != l
    ensures AllRemain(s.users, Separate(s, w, l, now).users)
  {
    hide Stored;
  }

  lemma AftermathPeers(t: TS, w: Key, l: Key, now: Time, round: Option<nat>)
    requires w in t.s.users && l in t.s.users && w != l
    ensures Peers(t.s.users, Aftermath(t, w, l, now, round).s.users)
  {
    hide Blows, Theft, Separate, TheftSlot, DisplayName;
    BlowsPeers(t.s, w, l);
    TheftPeers(Blows(t.s, w, l), w, l);
    SeparatePeers(Theft(Blows(t.s, w, l), w, l), w, l, now);
  }

  lemma MeetStaysEven(t: TS, a: Key, now: Time, poolOrder: seq<Key>)
    requires a in t.s.users && Even(t.s.users) && Acquainted(t.s.users)
    ensures Even(Meet(t, a, now, poolOrder).s.users) && Acquainted(Meet(t, a, now, poolOrder).s.users)
  {
    hide Aftermath, Upset, Opponent, RecordBout, Even, Acquainted, Round;
    var pool := Pool(t.s.users, poolOrder, a);
    if pool != [] {
      var (b, rng) := Opponent(t.s, pool, a);
      var s := RecordBout(t.s.(rng := rng), a, b);
      RecordStaysEven(t.s.(rng := rng), a, b);
      var u := t.(s := Skip(Skip(s)));
      assert a in s.users && b in s.users by { Recorded(t.s.(rng := rng), a, b); }
      var (w, l) := if Upset(s, a, b) then (b, a) else (a, b);
      AftermathPeers(u, w, l, now, Round(s.users, a, b));
      PeersStayEven(s.users, Aftermath(u, w, l, now, Round(s.users, a, b)).s.users);
    }
  }

  lemma Recorded(s: State, a: Key, b: Key)
    requires a in s.users && b in s.users
    ensures RecordBout(s, a, b).users.Keys == s.users.Keys
  {
  }

  lemma CollisionStaysEven(t: TS, now: Time, order: seq<Key>, poolOrder: seq<Key>)
    requires Even(t.s.users) && Acquainted(t.s.users)
    ensures Even(CollisionStep(t, now, order, poolOrder).s.users)
    ensures Acquainted(CollisionStep(t, now, order, poolOrder).s.users)
  {
    hide Meet, Even, Acquainted, CollisionDue;
    var due := CollisionDue(t.s.users, order, now);
    if due != [] {
      var a := due[Draw(t.s.rng, |due|)];
      assert a in due;
      MeetStaysEven(t.(s := Skip(t.s)), a, now, poolOrder);
    }
  }

  lemma TickStaysEven(s: State, now: Time, ord: Orders, champion: Faction)
    requires Inv(s) && Even(s.users) && Acquainted(s.users)
    requires s.users.Keys <= Tick(s, now, ord, champion).users.Keys
    ensures Even(Tick(s, now, ord, champion).users) && Acquainted(Tick(s, now, ord, champion).users)
  {
    hide WorldSteps, RunnerSteps, CollisionStep, Even, Acquainted, Core, Synced;
    var t0 := TS(s.(pending := []), []);
    var t1 := WorldSteps(t0, now, ord);
    var t2 := t1.(out := t1.out + s.pending);
    var t3 := RunnerSteps(t2, ord.runners, now, champion);
    Ticks.WorldStepsKeep(t0, now, ord);
    Ticks.RunnerStepsKeep(t2, ord.runners, now, champion);
    Ticks.CollisionKeeps(t3, now, ord.due, ord.pool);
    WorldPeers(t0, now, ord);
    WalkPeers(t2, ord.runners, now, champion);
    PeersThrough(s.users, t1.s.users, t3.s.users);
    PeersStayEven(s.users, t3.s.users);
    CollisionStaysEven(t3, now, ord.due, ord.pool);
  }

  // ---- The other operations ----

  lemma EnterPeers(s: State, j: Key, nick: Name, account: Option<Name>, now: Time)
    ensures Peers(s.users, Enter(s, j, nick, account, now).users)
  {
    hide Advance, LevelMsgs, Queue, Stagger, Stored;
    if j in s.users {
      AdvancePeers(s.users[j], now, s.rules);
    }
  }

  /** A join that makes nobody disappear merges nobody. */
  lemma JoinPeers(s: State, nick: Name, account: Option<Name>, now: Time, order: seq<Key>)
    requires Kept(s, {}) && s.users.Keys <= Join(s, nick, account, now, order).users.Keys
    ensures Peers(s.users, Join(s, nick, account, now, order).users)
  {
    hide Enter, Migrate, Migratable, Core, Synced;
    var k, g := JoinKey(nick, account), JoinFrom(s, nick, account, order);
    if g.Some? {
      Accounts.MigratedAway(s, g.value, account.value, nick, now);
      assert g.value in Enter(Migrate(s, g.value, account.value, nick, now), k, nick, account, now).users;
      Accounts.EntersOnly(Migrate(s, g.value, account.value, nick, now), k, nick, account, now, g.value);
    } else {
      EnterPeers(s, k, nick, account, now);
    }
  }

  lemma SwitchPeers(s: State, k: Key, now: Time)
    requires k in s.users
    ensures AllRemain(s.users, SwitchOff(s, k, now).users)
  {
    hide Advance, LevelMsgs, Queue, Stored;
    AdvancePeers(s.users[k], now, s.rules);
  }

  lemma BindPeers(s: State, nick: Name, account: Name, now: Time, order: seq<Key>, joinOrder: seq<Key>)
    requires Inv(s) && s.users.Keys <= Bind(s, nick, account, now, order, joinOrder).users.Keys
    ensures Peers(s.users, Bind(s, nick, account, now, order, joinOrder).users)
  {
    hide SwitchOff, Join, FirstConnected, Core, Synced;
    if account.fold != "" {
      var old_ := SwitchedFrom(s, nick, account, order);
      if old_.Some? {
        SwitchPeers(s, old_.value, now);
        Operations.SwitchOffKeeps(s, old_.value, now);
      }
      JoinPeers(Unbound(s, nick, account, now, order), nick, Some(account), now, joinOrder);
    }
  }

  /** One runner is advanced and keeps its counts. */
  lemma OneAdvanced(s: State, t: State, hit: Option<Key>, now: Time)
    requires t.users == s.users
          || (hit.Some? && hit.value in s.users && hit.value in t.users
              && t.users == s.users[hit.value := t.users[hit.value]]
              && t.users[hit.value].rivals == Advance(s.users[hit.value], now, s.rules).rivals)
    ensures Peers(s.users, t.users)
  {
    hide Advance;
    if t.users != s.users {
      AdvancePeers(s.users[hit.value], now, s.rules);
    }
  }

  lemma CommandPeers(s: State, op: Op)
    requires op.OpSetAlias? || op.OpSetStance? || op.OpSetFaction? || op.OpStatus?
    ensures Peers(s.users, Apply(s, op).users)
  {
    hide Advance, Find, LevelMsgs, Queue, Stored, AliasTaken, ValidAlias, MaySwap, SwapOpen, Peers;
    OneAdvanced(s, Apply(s, op), Find(s.users, op.identity, op.nick, op.order), op.now);
  }

  lemma TalkPeers(s: State, op: Op)
    requires op.OpActivity? || op.OpClaimDeadDrop?
    ensures Peers(s.users, Apply(s, op).users)
  {
    hide Advance, Find, LevelMsgs, Queue, Stored, PenaltySeconds, Waived, LevelDuration, Max, DisplayName, LastOf,
      Peers;
    OneAdvanced(s, Apply(s, op), Find(s.users, op.identity, op.nick, op.order), op.now);
  }

  /** A rename that makes nobody disappear moves nobody. */
  lemma LeavePeers(s: State, op: Op)
    requires op.OpDisconnect? || op.OpRename?
    requires s.users.Keys <= Apply(s, op).users.Keys
    ensures Peers(s.users, Apply(s, op).users)
  {
    hide Advance, Find, LevelMsgs, Queue, Stored, PenaltySeconds, DisplayName, ClampHeat, DisconnectHeat, Peers;
    var t, hit := Apply(s, op), Find(s.users, None, op.nick, op.order);
    if !(op.OpRename? && hit.Some? && Moves(s, hit.value, op.newNick) && s.users[hit.value].connected) {
      OneAdvanced(s, t, hit, op.now);
    }
  }

  lemma PausePeers(s: State, now: Time, order: seq<Key>)
    requires Enumerates(order, s.users.Keys)
    ensures Remain(DisconnectAll(s, now, order).users, s.users)
  {
    hide Advance, PauseAll;
    forall k | k in s.users
      ensures k in PauseAll(s, order, now).users && s.users[k].rivals == PauseAll(s, order, now).users[k].rivals
    {
      Accounts.PausedAll(s, order, now, k);
      AdvancePeers(s.users[k], now, s.rules);
    }
  }

  lemma {:induction false} PauseKeys(s: State, order: seq<Key>, now: Time)
    ensures PauseAll(s, order, now).users.Keys == s.users.Keys
  {
    hide Advance, LevelMsgs, Queue, Stored;
    if order != [] {
      PauseKeys(s, order[..|order| - 1], now);
    }
  }

  lemma RosterPeers(s: State, present: set<Name>, grace: int, now: Time, order: seq<Key>)
    requires Enumerates(order, s.users.Keys)
    ensures Remain(Reconcile(s, present, grace, now, order).users, s.users)
    ensures Reconcile(s, present, grace, now, order).users.Keys == s.users.Keys
  {
    hide Advance, Reconcile;
    Roster.ReconcileExact(s, present, grace, now, order, Guest(""));
    forall k | k in s.users
      ensures k in Reconcile(s, present, grace, now, order).users
           && s.users[k].rivals == Reconcile(s, present, grace, now, order).users[k].rivals
    {
      Roster.ReconcileExact(s, present, grace, now, order, k);
      AdvancePeers(s.users[k], now, s.rules);
    }
  }

  lemma TopPeers(s: State, now: Time, order: seq<Key>)
    requires Enumerates(order, s.users.Keys)
    ensures Peers(s.users, RefreshAll(s, order, now).users)
  {
    hide Advance, RefreshAll;
    Ranking.KeysStay(s, order, now);
    forall k | k in s.users ensures RefreshAll(s, order, now).users[k].rivals == s.users[k].rivals {
      Ranking.CaughtUp(s, order, now, k);
      AdvancePeers(s.users[k], now, s.rules);
    }
  }

  lemma RestartPeers(s: State, now: Time, rng: Rng, order: seq<Key>)
    requires Inv(s) && Enumerates(order, s.repo.players.Keys)
    ensures Peers(s.users, Restart(s.rules, s.repo, now, rng, order).users)
  {
    hide Restart;
    Restarts.RestartKeeps(s, now, rng, order);
    var t := Restart(s.rules, s.repo, now, rng, order);
    forall k | k in s.users ensures t.users[k].rivals == s.users[k].rivals {
      assert Restarts.Reborn(Stored(s.users[k]), t.users[k]);
    }
  }

  lemma OpStaysEven(s: State, op: Op)
    requires Inv(s) && Sensible(s, op) && s.users.Keys <= Apply(s, op).users.Keys
    requires Even(s.users) && Acquainted(s.users)
    ensures Even(Apply(s, op).users) && Acquainted(Apply(s, op).users)
  {
    hide Join, Bind, SetAlias, SetStance, SetFaction, Activity, Status, Disconnect, Reconcile, Rename, RefreshAll,
      PauseAll, ClaimDeadDrop, Tick, Restart, Even, Acquainted, Kept, WorldSaved, DropCode;
    if op.OpTick? {
      TickStaysEven(s, op.now, op.orders, op.champion);
    } else {
      match op {
      case OpJoin(nick, account, now, order) => JoinPeers(s, nick, account, now, order);
      case OpBind(nick, to, now, order, joinOrder) => BindPeers(s, nick, to, now, order, joinOrder);
      case OpSetAlias(_, _, _, _, _) => CommandPeers(s, op);
      case OpSetStance(_, _, _, _, _) => CommandPeers(s, op);
      case OpSetFaction(_, _, _, _, _) => CommandPeers(s, op);
      case OpActivity(_, _, _, _, _, _, _) => TalkPeers(s, op);
      case OpStatus(_, _, _, _) => CommandPeers(s, op);
      case OpDisconnect(_, _, _, _) => LeavePeers(s, op);
      case OpDisconnectAll(now, order) => PausePeers(s, now, order); PauseKeys(s, order, now);
      case OpReconcile(present, grace, now, order) => RosterPeers(s, present, grace, now, order);
      case OpRename(_, _, _, _) => LeavePeers(s, op);
      case OpTop(now, order) => TopPeers(s, now, order);
      case OpClaimDeadDrop(_, _, _, _, _, _) => TalkPeers(s, op);
      case OpForcePirate(now) =>
      case OpRestart(now, rng, order) => RestartPeers(s, now, rng, order);
      }
      PeersStayEven(s.users, Apply(s, op).users);
    }
  }

  // ---- Whole runs ----

  /** In step `i` nobody is renamed to another key, merged or pruned. */
  ghost predicate NobodyVanishes(states: seq<State>, i: nat)
    requires i + 1 < |states|
  {
    states[i].users.Keys <= states[i + 1].users.Keys
  }

  lemma StepStaysEven(states: seq<State>, ops: seq<Op>, i: nat)
    requires Run(states, ops) && i < |ops| && Inv(states[i]) && NobodyVanishes(states, i)
    requires Even(states[i].users) && Acquainted(states[i].users)
    ensures Even(states[i + 1].users) && Acquainted(states[i + 1].users)
  {
    hide Apply, Even, Acquainted, Inv;
    assert StepAt(states, ops, i);
    OpStaysEven(states[i], ops[i]);
  }

  /** While identities are stable, any two runners count the same number of bouts against each other. */
  lemma {:induction false} BoutsStayEven(states: seq<State>, ops: seq<Op>, rules: Tuning, now: Time, rng: Rng, n: nat)
    requires FromEmpty(states, ops, rules, now, rng) && n <= |ops|
    requires forall i: nat :: i < n ==> NobodyVanishes(states, i)
    ensures Even(states[n].users) && Acquainted(states[n].users)
  {
    hide Inv;
    if n > 0 {
      BoutsStayEven(states, ops, rules, now, rng, n - 1);
      RunKeeps(states, ops, n - 1);
      StepStaysEven(states, ops, n - 1);
    } else {
      BootKeeps(rules, now, rng);
    }
  }
}
