/** Crash windows over whole runs: a week apart, and one respec per runner in each. */
module Windows {
  import opened Grid
  import opened Progression
  import opened StoreRows
  import opened Machine
  import opened Invariants
  import opened Ticks
  import opened Runs
  import opened Frames
  import opened Paths
  import Operations
  import Restarts

  /** The clock of the crash windows. */
  datatype Clock = Clock(until: Time, startedAt: Time, nextAt: Time)

  function ClockOf(w: World): Clock { Clock(w.swapUntil, w.swapStartedAt, w.nextSwapAt) }

  /** The operation is a tick that opens a window. */
  predicate Opens(s: State, op: Op) {
    op.OpTick? && !SwapCloses(s.world, op.now) && SwapStarts(s.world, op.now)
  }

  // ---- The tick's effect on the clock and the contract ----

  lemma EventWorld(t: TS, now: Time, order: seq<Key>)
    requires Kept(t.s, {})
    ensures var u := CityEventTick(t, now, order);
            && ClockOf(u.s.world) == ClockOf(t.s.world) && t.out <= u.out
            && (t.s.world.contract.Some? ==> u.s.world.contract == t.s.world.contract)
            && (u.s.world.contract != t.s.world.contract ==> FreshContract(u.s, now))
  {
    var (news, rng) := Pick(t.s, order);
    var u := t.(s := t.s.(rng := rng));
    if news.Event? {
      EventAllKeeps(u.s, order, news.kind, now);
    }
  }

  /** A contract just started: nobody has failed it and its team is linked. */
  ghost predicate FreshContract(s: State, now: Time) {
    s.world.contract.Some? && var c := s.world.contract.value;
      !c.failed && c.endsAt == now + s.rules.contractDuration
      && forall k :: k in c.participants ==> k in s.users && s.users[k].connected
  }

  lemma ResolveWorld(t: TS, now: Time)
    requires Kept(t.s, {})
    ensures var u := ResolveContract(t, now);
            && ClockOf(u.s.world) == ClockOf(t.s.world) && t.out <= u.out
            && u.s.world.contract == (if ContractDue(t.s.world, now) then None else t.s.world.contract)
            && (ContractDue(t.s.world, now) ==> u.out == t.out + [ContractNews(t.s)])
  {
    if ContractDue(t.s.world, now) {
      SettleAllKeeps(t.s, t.s.world.contract.value.participants, ContractHeld(t.s), now);
    }
  }

  /** What the tick announces about a contract that is due. */
  function ContractNews(s: State): Msg
    requires s.world.contract.Some?
  {
    if ContractHeld(s) then ContractComplete else ContractFailed(s.world.contract.value.droppedBy)
  }

  lemma RaidWorld(t: TS, now: Time, order: seq<Key>)
    requires Kept(t.s, {})
    ensures var u := ResolveRaid(t, now, order);
            ClockOf(u.s.world) == ClockOf(t.s.world) && t.out <= u.out && u.s.world.contract == t.s.world.contract
  {
    if t.s.world.raid.Some? && now >= t.s.world.raid.value {
      RaidStepKeeps(t.(s := t.s.(world := t.s.world.(raid := None))), now, order);
    }
  }

  /** Raids, dead drops and city events leave the clock and a running contract alone. */
  lemma LaterWorld(t: TS, now: Time, ord: Orders)
    requires Kept(t.s, {}) && Told(t)
    ensures var u := CityEventTick(DropExpiry(ResolveRaid(t, now, ord.raid), now), now, ord.event);
            && ClockOf(u.s.world) == ClockOf(t.s.world) && t.out <= u.out
            && (t.s.world.contract.Some? ==> u.s.world.contract == t.s.world.contract)
            && (u.s.world.contract != t.s.world.contract ==> FreshContract(u.s, now))
  {
    var t1 := ResolveRaid(t, now, ord.raid);
    ResolveRaidKeeps(t, now, ord.raid);
    RaidWorld(t, now, ord.raid);
    EventWorld(DropExpiry(t1, now), now, ord.event);
  }

  lemma SaidStays(m: Msg, said: seq<Msg>, out: seq<Msg>)
    requires m in said && said <= out
    ensures m in out
  {
    assert out[..|said|] == said;
  }

  /** A crash window opening or closing changes nothing about a contract. */
  lemma SwapSameContract(t: TS, now: Time)
    ensures var u := SwapTick(t, now);
            && u.s.world.contract == t.s.world.contract && u.s.users == t.s.users
            && ContractDue(u.s.world, now) == ContractDue(t.s.world, now)
            && (t.s.world.contract.Some? ==> ContractNews(u.s) == ContractNews(t.s))
  {
    hide NextSwap;
  }

  lemma WorldStepsWorld(t: TS, now: Time, ord: Orders)
    requires Kept(t.s, {}) && Told(t)
    ensures var u := WorldSteps(t, now, ord);
            && ClockOf(u.s.world) == ClockOf(SwapTick(t, now).s.world)
            && (ContractDue(t.s.world, now) ==> ContractNews(t.s) in u.out)
            && (!ContractDue(t.s.world, now) && t.s.world.contract.Some? ==> u.s.world.contract == t.s.world.contract)
            && (u.s.world.contract.Some? && (t.s.world.contract.None? || ContractDue(t.s.world, now)) ==>
                  FreshContract(u.s, now))
  {
    hide SwapTick, ResolveContract, ResolveRaid, CityEventTick, DropExpiry, ContractNews;
    var t1 := SwapTick(t, now);
    var t2 := ResolveContract(t1, now);
    SwapTickKeeps(t, now);
    SwapSameContract(t, now);
    ResolveContractKeeps(t1, now);
    ResolveWorld(t1, now);
    LaterWorld(t2, now, ord);
    if ContractDue(t.s.world, now) {
      SaidStays(ContractNews(t.s), t2.out, WorldSteps(t, now, ord).out);
    }
  }

  /** The world events of a tick, from a state with nothing queued. */
  function Events(s: State, now: Time, ord: Orders): TS {
    WorldSteps(TS(s.(pending := []), []), now, ord)
  }

  /** What follows the world events leaves the world alone and only adds announcements. */
  lemma TickTail(s: State, now: Time, ord: Orders, champion: Faction)
    requires Inv(s)
    ensures var u := TickSteps(s, now, ord, champion);
            u.s.world == Events(s, now, ord).s.world && Events(s, now, ord).out <= u.out
  {
    var t0 := TS(s.(pending := []), []);
    WorldStepsKeep(t0, now, ord);
    var t1 := Events(s, now, ord);
    var t2 := t1.(out := t1.out + s.pending);
    RunnerStepsKeep(t2, ord.runners, now, champion);
    CollisionKeeps(RunnerSteps(t2, ord.runners, now, champion), now, ord.due, ord.pool);
  }

  lemma TickWorld(s: State, now: Time, ord: Orders, champion: Faction)
    requires Inv(s)
    ensures var t := Tick(s, now, ord, champion);
            && ClockOf(t.world) == ClockOf(SwapTick(TS(s, []), now).s.world)
            && (ContractDue(s.world, now) ==> ContractNews(s) in TickSteps(s, now, ord, champion).out)
            && (!ContractDue(s.world, now) && s.world.contract.Some? ==> t.world.contract == s.world.contract)
            && (t.world.contract.Some? && (s.world.contract.None? || ContractDue(s.world, now)) ==>
                  FreshContract(Events(s, now, ord).s, now) && t.world.contract == Events(s, now, ord).s.world.contract)
  {
    hide RunnerSteps, CollisionStep, ResolveContract, ResolveRaid, CityEventTick, NextSwap;
    TickTail(s, now, ord, champion);
    WorldStepsWorld(TS(s.(pending := []), []), now, ord);
  }

  // ---- The clock over one operation ----

  /** What an operation makes of the clock. */
  function Ticked(s: State, op: Op): Clock {
    var c := ClockOf(s.world);
    match op
    case OpTick(now, orders, champion) =>
      if SwapCloses(s.world, now) then c.(until := 0)
      else if SwapStarts(s.world, now) then Clock(now + FACTION_SWAP_DURATION, now, NextSwap(now, s.rng))
      else c
    case OpRestart(now, rng, order) => Clock(Truncate(c.until), Truncate(c.startedAt), Truncate(c.nextAt))
    case _ => c
  }

  lemma OpClock(s: State, op: Op)
    requires Inv(s) && Sensible(s, op)
    ensures (op.OpRestart? && Truncate(s.world.nextSwapAt) == 0) || ClockOf(Apply(s, op).world) == Ticked(s, op)
  {
    hide Join, Bind, SetAlias, SetStance, SetFaction, Activity, Status, Disconnect, DisconnectAll, Reconcile, Rename,
      RefreshAll, Tick, Restart;
    if op.OpTick? {
      TickWorld(s, op.now, op.orders, op.champion);
    } else if op.OpRestart? {
      Restarts.RestartKeeps(s, op.now, op.rng, op.order);
    } else if op.OpClaimDeadDrop? {
      var hit := ClaimHit(s, op.identity, op.nick, op.channel, op.text, op.now, op.order);
      if hit.Some? { ClaimLineage(s, hit.value, op.now); }
    } else if !op.OpForcePirate? {
      OpFrame(s, op);
    }
  }

  // ---- Windows are a week apart ----

  /** The clock is consistent at time `now`: an open window lasts a day, the next start is a week off. */
  predicate ClockOk(c: Clock, now: Time) {
    && 0 <= c.startedAt <= now && c.nextAt >= 0
    && (c.until != 0 ==> c.startedAt > 0 && c.until == c.startedAt + FACTION_SWAP_DURATION)
    && (c.startedAt != 0 ==> c.startedAt >= SECOND && c.nextAt >= c.startedAt + FACTION_SWAP_WEEK)
    && (c.nextAt != 0 ==> c.nextAt >= SECOND)
  }

  lemma TruncateShift(t: Time, whole: int)
    ensures Truncate(t + whole * SECOND) == Truncate(t) + whole * SECOND
  {
  }

  lemma TruncateMonotone(a: Time, b: Time)
    requires a <= b
    ensures Truncate(a) <= Truncate(b)
  {
  }

  lemma TickedOk(s: State, op: Op, before: Time)
    requires ClockOk(ClockOf(s.world), before) && before <= op.now && op.now >= SECOND
    ensures ClockOk(Ticked(s, op), op.now)
  {
    var c := ClockOf(s.world);
    if op.OpRestart? {
      TruncateShift(c.startedAt, 24 * 60 * 60);
      TruncateShift(c.startedAt, 7 * 24 * 60 * 60);
      if c.startedAt != 0 {
        TruncateMonotone(c.startedAt + FACTION_SWAP_WEEK, c.nextAt);
        TruncateMonotone(SECOND, c.startedAt);
      }
      if c.nextAt != 0 { TruncateMonotone(SECOND, c.nextAt); }
    }
  }

  lemma OpClockOk(s: State, op: Op, before: Time)
    requires Inv(s) && Sensible(s, op) && ClockOk(ClockOf(s.world), before) && before <= op.now
    ensures ClockOk(ClockOf(Apply(s, op).world), op.now)
    ensures s.world.nextSwapAt != 0 ==> ClockOf(Apply(s, op).world) == Ticked(s, op)
  {
    OpClock(s, op);
    TickedOk(s, op, before);
    if op.OpRestart? && Truncate(s.world.nextSwapAt) == 0 {
      Restarts.RestartKeeps(s, op.now, op.rng, op.order);
      if s.world.nextSwapAt != 0 {
        TruncateMonotone(SECOND, s.world.nextSwapAt);
      }
      RestartFresh(s, op.now, op.rng, op.order);
    }
  }

  /** A store that never had a window scheduled gets one at least a week off. */
  lemma RestartFresh(s: State, now: Time, rng: Rng, order: seq<Key>)
    requires Inv(s) && Enumerates(order, s.repo.players.Keys) && Truncate(s.world.nextSwapAt) == 0
    ensures Restart(s.rules, s.repo, now, rng, order).world.nextSwapAt >= now + FACTION_SWAP_WEEK
  {
    Restarts.LoadKeeps(s, now, rng, order);
  }

  // ---- Whole runs ----

  /** A run on a clock that never goes back and had read `before` at the start. */
  ghost predicate Timely(states: seq<State>, ops: seq<Op>, before: Time) {
    && Run(states, ops) && InOrder(ops) && ClockOk(ClockOf(states[0].world), before)
    && (ops != [] ==> before <= ops[0].now)
  }

  function LastTime(ops: seq<Op>, n: nat, before: Time): Time
    requires n <= |ops|
  {
    if n == 0 then before else ops[n - 1].now
  }

  /** The facts about one step that the clock theorems need. */
  ghost predicate ClockStep(s: State, op: Op, t: State) {
    && op.now >= SECOND && ClockOk(ClockOf(t.world), op.now)
    && (s.world.nextSwapAt != 0 ==> ClockOf(t.world) == Ticked(s, op))
  }

  lemma StepClocks(states: seq<State>, ops: seq<Op>, i: nat, before: Time)
    requires Run(states, ops) && i < |ops| && Inv(states[i])
    requires ClockOk(ClockOf(states[i].world), before) && before <= ops[i].now
    ensures ClockStep(states[i], ops[i], states[i + 1])
  {
    assert StepAt(states, ops, i);
    OpClockOk(states[i], ops[i], before);
  }

  lemma {:induction false} ClockRun(states: seq<State>, ops: seq<Op>, n: nat, before: Time)
    requires Timely(states, ops, before) && n <= |ops|
    ensures Inv(states[n]) && ClockOk(ClockOf(states[n].world), LastTime(ops, n, before))
    ensures n < |ops| ==> LastTime(ops, n, before) <= ops[n].now && ClockStep(states[n], ops[n], states[n + 1])
  {
    RunKeeps(states, ops, n);
    if n > 0 {
      ClockRun(states, ops, n - 1, before);
    }
    if n < |ops| {
      StepClocks(states, ops, n, LastTime(ops, n, before));
    }
  }

  lemma ClockHeld(states: seq<State>, ops: seq<Op>, n: nat, before: Time)
    requires Timely(states, ops, before) && n < |ops|
    ensures Inv(states[n]) && ClockOk(ClockOf(states[n].world), LastTime(ops, n, before))
    ensures LastTime(ops, n, before) <= ops[n].now
  {
    ClockRun(states, ops, n, before);
  }

  predicate NoRestart(ops: seq<Op>, i: nat, j: nat) {
    forall m :: i <= m < j && m < |ops| ==> !ops[m].OpRestart?
  }

  /** The next window is scheduled a week after `start`, give or take the rounding of a restart. */
  predicate WeekOff(next: Time, start: Time, exact: bool) {
    next != 0 && next >= Truncate(start + FACTION_SWAP_WEEK) && (exact ==> next >= start + FACTION_SWAP_WEEK)
  }

  lemma StepWeekOff(s: State, op: Op, t: State, start: Time, exact: bool)
    requires ClockStep(s, op, t) && 0 <= start <= op.now && s.world.nextSwapAt >= 0
    requires WeekOff(s.world.nextSwapAt, start, exact) || Opens(s, op)
    ensures WeekOff(t.world.nextSwapAt, start, !op.OpRestart? && (exact || Opens(s, op)))
  {
    Restarts.TruncateTwice(start + FACTION_SWAP_WEEK);
    if op.OpRestart? {
      TruncateMonotone(Truncate(start + FACTION_SWAP_WEEK), s.world.nextSwapAt);
      TruncateMonotone(SECOND, start + FACTION_SWAP_WEEK);
    }
  }

  /** From an opening on, the next one is scheduled a week after it; a restart rounds that down to the second. */
  lemma {:induction false} NextFar(states: seq<State>, ops: seq<Op>, i: nat, n: nat, before: Time)
    requires Timely(states, ops, before) && i < n <= |ops| && Opens(states[i], ops[i])
    ensures WeekOff(states[n].world.nextSwapAt, ops[i].now, NoRestart(ops, i, n))
    decreases n
  {
    ClockRun(states, ops, n - 1, before);
    ClockRun(states, ops, i, before);
    if i < n - 1 {
      NextFar(states, ops, i, n - 1, before);
      StepWeekOff(states[n - 1], ops[n - 1], states[n], ops[i].now, NoRestart(ops, i, n - 1));
      assert NoRestart(ops, i, n) ==> NoRestart(ops, i, n - 1) && !ops[n - 1].OpRestart?;
    } else {
      StepWeekOff(states[i], ops[i], states[n], ops[i].now, false);
    }
  }

  /**
   Crash windows never overlap and start a week apart, to the second across restarts: in full if nothing was
   restarted in between, or if the earlier one opened on a whole second.
   */
  lemma WindowsApart(states: seq<State>, ops: seq<Op>, i: nat, j: nat, before: Time)
    requires Timely(states, ops, before) && i < j < |ops| && Opens(states[i], ops[i]) && Opens(states[j], ops[j])
    ensures ops[j].now >= Truncate(ops[i].now + 7 * DAY) > ops[i].now + 7 * DAY - SECOND
    ensures NoRestart(ops, i, j) || ops[i].now % SECOND == 0 ==> ops[j].now >= ops[i].now + 7 * DAY
    ensures states[j].world.swapStartedAt != 0 ==> ops[j].now >= states[j].world.swapStartedAt + 7 * DAY
  {
    NextFar(states, ops, i, j, before);
    ClockRun(states, ops, j, before);
    Restarts.TruncateTwice(ops[i].now + FACTION_SWAP_WEEK);
    TruncateShift(ops[i].now, 7 * 24 * 60 * 60);
  }

  // ---- When the next window may come early ----

  /** Opening, or anything else but an opening, does to a schedule once set. */
  lemma StepScheduled(s: State, op: Op, t: State, at: Time)
    requires ClockStep(s, op, t) && at >= SECOND
    requires if Opens(s, op) then at == NextSwap(op.now, s.rng) else s.world.nextSwapAt == at
    ensures t.world.nextSwapAt == if op.OpRestart? then Truncate(at) else at
  {
    hide NextSwap, ClockOk;
  }

  /** From one opening to the next the schedule stands, rounded down to the second by the first restart. */
  lemma {:induction false} ScheduleStands(states: seq<State>, ops: seq<Op>, i: nat, n: nat, before: Time)
    requires Timely(states, ops, before) && i < n <= |ops| && Opens(states[i], ops[i])
    requires forall m :: i < m < n ==> !Opens(states[m], ops[m])
    ensures var at := NextSwap(ops[i].now, states[i].rng);
            states[n].world.nextSwapAt == if NoRestart(ops, i, n) then at else Truncate(at)
    decreases n
  {
    hide Opens, ClockOk;
    var at := NextSwap(ops[i].now, states[i].rng);
    ClockRun(states, ops, i, before);
    ScheduledLater(states[i], ops[i]);
    ClockRun(states, ops, n - 1, before);
    if i < n - 1 {
      ScheduleStands(states, ops, i, n - 1, before);
      Restarts.TruncateTwice(at);
      TruncateMonotone(SECOND, at);
      StepScheduled(states[n - 1], ops[n - 1], states[n], states[n - 1].world.nextSwapAt);
      assert NoRestart(ops, i, n) <==> NoRestart(ops, i, n - 1) && !ops[n - 1].OpRestart?;
    } else {
      StepScheduled(states[i], ops[i], states[n], at);
      assert NoRestart(ops, i, n);
    }
  }

  lemma ScheduledLater(s: State, op: Op)
    requires Opens(s, op)
    ensures op.OpTick?
    ensures op.now >= 0 ==> NextSwap(op.now, s.rng) >= op.now + FACTION_SWAP_WEEK > SECOND
  {
  }

  /** Rounding down undercuts the week exactly if the draw added no day and the start is off the whole second. */
  lemma RoundedShort(now: Time, days: nat)
    ensures Truncate(now + FACTION_SWAP_WEEK + days * DAY) < now + FACTION_SWAP_WEEK <==> days == 0 && now % SECOND != 0
  {
    var whole := (7 + days) * 24 * 60 * 60;
    assert FACTION_SWAP_WEEK + days * DAY == whole * SECOND;
    TruncateShift(now, whole);
    Restarts.TruncateTwice(now);
  }

  /**
   The next window is scheduled less than seven days after the last one opened exactly if the engine was
   restarted since, the draw added no day, and the last one opened off the whole second.
   */
  lemma ShortExactly(states: seq<State>, ops: seq<Op>, i: nat, n: nat, before: Time)
    requires Timely(states, ops, before) && i < n <= |ops| && Opens(states[i], ops[i])
    requires forall m :: i < m < n ==> !Opens(states[m], ops[m])
    ensures states[n].world.nextSwapAt < ops[i].now + FACTION_SWAP_WEEK
       <==> !NoRestart(ops, i, n) && Draw(states[i].rng, 7) == 0 && ops[i].now % SECOND != 0
  {
    hide Opens;
    ScheduleStands(states, ops, i, n, before);
    RoundedShort(ops[i].now, Draw(states[i].rng, 7));
  }

  const NOWHERE: Orders := Orders([], [], [], [], [])

  /** An operation on an engine nobody has joined yet. */
  lemma EmptyStep(s: State, op: Op)
    requires Inv(s) && s.users == map[] && Idle(op)
    ensures Sensible(s, op) && Inv(Apply(s, op)) && Apply(s, op).users == map[]
    ensures s.world.nextSwapAt >= SECOND ==> ClockOf(Apply(s, op).world) == Ticked(s, op)
  {
    hide Tick, Restart;
    assert Enumerates([], s.users.Keys);
    if op.OpRestart? {
      forall k ensures k !in s.repo.players {
        Restarts.RowSound(s, k);
      }
      assert s.repo.players.Keys == {};
      Restarts.RestartKeeps(s, op.now, op.rng, op.order);
      if s.world.nextSwapAt >= SECOND { TruncateMonotone(SECOND, s.world.nextSwapAt); }
    } else {
      TickStepsKeep(s, op.now, op.orders, op.champion);
      EmptyTick(s, op.now, op.champion);
    }
    OpKeeps(s, op);
    OpClock(s, op);
  }

  lemma EmptyTick(s: State, now: Time, champion: Faction)
    requires Inv(s) && s.users == map[]
    ensures Tick(s, now, NOWHERE, champion).users == map[]
  {
    hide TickSteps;
    TickStepsKeep(s, now, NOWHERE, champion);
    assert Tick(s, now, NOWHERE, champion).users.Keys == {};
  }

  lemma BootClock()
    ensures var s := Boot(DEFAULT_RULES, SECOND, []);
            ClockOf(s.world) == Clock(0, 0, SECOND + FACTION_SWAP_WEEK) && s.rng == []
  {
  }

  /** Ticks and restarts of an engine nobody ever joins. */
  predicate Idle(op: Op) {
    op.now >= SECOND && ((op.OpTick? && op.orders == NOWHERE) || (op.OpRestart? && op.order == []))
  }

  ghost predicate ClockAt(states: seq<State>, ops: seq<Op>, i: nat)
    requires |states| == |ops| + 1 && i < |ops|
  {
    states[i].world.nextSwapAt >= SECOND ==> ClockOf(states[i + 1].world) == Ticked(states[i], ops[i])
  }

  lemma {:induction false} IdleRun(ops: seq<Op>) returns (states: seq<State>)
    requires forall op :: op in ops ==> Idle(op)
    ensures FromEmpty(states, ops, DEFAULT_RULES, SECOND, [])
    ensures Inv(states[|ops|]) && states[|ops|].users == map[]
    ensures forall i :: 0 <= i < |ops| ==> ClockAt(states, ops, i)
  {
    hide Apply, Boot, Inv, Sensible, Ticked;
    if ops == [] {
      BootKeeps(DEFAULT_RULES, SECOND, []);
      states := [Boot(DEFAULT_RULES, SECOND, [])];
    } else {
      var rest, op := ops[..|ops| - 1], ops[|ops| - 1];
      assert op in ops && ops == rest + [op];
      var before := IdleRun(rest);
      var s := before[|rest|];
      EmptyStep(s, op);
      states := before + [Apply(s, op)];
      forall i | 0 <= i < |ops| ensures StepAt(states, ops, i) && ClockAt(states, ops, i) {
        if i < |rest| { assert StepAt(before, rest, i) && ClockAt(before, rest, i); }
      }
    }
  }

  lemma TickedOpening(s: State, now: Time)
    requires s.world.swapUntil == 0 && 0 < s.world.nextSwapAt <= now && s.rng == []
    ensures Ticked(s, OpTick(now, NOWHERE, Unaffiliated))
            == Clock(now + FACTION_SWAP_DURATION, now, now + FACTION_SWAP_WEEK)
  {
  }

  lemma TickedClosing(s: State, now: Time)
    requires 0 < s.world.swapUntil <= now
    ensures Ticked(s, OpTick(now, NOWHERE, Unaffiliated)) == ClockOf(s.world).(until := 0)
  {
  }

  lemma TickedRestart(s: State, now: Time)
    requires s.world.swapUntil == 0
    ensures var c := Ticked(s, OpRestart(now, [], []));
            c.until == 0 && c.nextAt == Truncate(s.world.nextSwapAt)
  {
  }

  /**
   A run since the store was empty in which a restart brings a window early: it opens a nanosecond past a whole
   second, and the next one opens a nanosecond short of seven days later.
   */
  lemma EarlyWindow() returns (states: seq<State>, ops: seq<Op>)
    ensures FromEmpty(states, ops, DEFAULT_RULES, SECOND, []) && InOrder(ops) && |ops| == 4
    ensures Opens(states[0], ops[0]) && Opens(states[3], ops[3])
    ensures ops[3].now == ops[0].now + FACTION_SWAP_WEEK - 1
  {
    hide Run, Boot, Inv, Ticked, Opens, Truncate;
    var start := SECOND + FACTION_SWAP_WEEK + 1;
    ops := [OpTick(start, NOWHERE, Unaffiliated),
            OpTick(start + FACTION_SWAP_DURATION, NOWHERE, Unaffiliated),
            OpRestart(start + FACTION_SWAP_DURATION, [], []),
            OpTick(start + FACTION_SWAP_WEEK - 1, NOWHERE, Unaffiliated)];
    states := IdleRun(ops);
    BootClock();
    RunLength(states, ops);
    assert ClockAt(states, ops, 0) && ClockAt(states, ops, 1) && ClockAt(states, ops, 2);
    OpensDue(states[0], start);
    TickedOpening(states[0], start);
    TickedClosing(states[1], start + FACTION_SWAP_DURATION);
    TickedRestart(states[2], start + FACTION_SWAP_DURATION);
    assert Truncate(start + FACTION_SWAP_WEEK) == start + FACTION_SWAP_WEEK - 1 by { EarlySecond(); }
    OpensDue(states[3], start + FACTION_SWAP_WEEK - 1);
  }

  lemma OpensDue(s: State, now: Time)
    requires s.world.swapUntil == 0 && 0 < s.world.nextSwapAt <= now
    ensures Opens(s, OpTick(now, NOWHERE, Unaffiliated))
  {
  }

  lemma EarlySecond()
    ensures var at := SECOND + FACTION_SWAP_WEEK + 1 + FACTION_SWAP_WEEK;
            Truncate(at) == at - 1
  {
  }

  lemma RunLength(states: seq<State>, ops: seq<Op>)
    requires Run(states, ops)
    ensures |states| == |ops| + 1
  {
  }

  // ---- One respec per window ----

  /** The runner at `k` has a faction and may not change it before the next window opens. */
  predicate Locked(s: State, k: Key, now: Time) {
    && k in s.users && s.users[k].faction != Unaffiliated
    && (s.world.swapUntil == 0 || now >= s.world.swapUntil
        || s.users[k].lastFactionSwapAt >= s.world.swapStartedAt)
  }

  /** The operation is a faction command accepted for the runner at `k`. */
  predicate Accepts(s: State, op: Op, k: Key) {
    && op.OpSetFaction? && SetFaction(s, op.identity, op.nick, op.faction, op.now, op.order).1
    && Find(s.users, op.identity, op.nick, op.order) == Some(k)
  }

  lemma LockedRejects(s: State, op: Op, k: Key, now: Time)
    requires Locked(s, k, now) && now <= op.now
    ensures !Accepts(s, op, k)
  {
  }

  lemma AcceptLocks(s: State, op: Op, k: Key, before: Time)
    requires Inv(s) && Sensible(s, op) && ClockOk(ClockOf(s.world), before) && before <= op.now && Accepts(s, op, k)
    ensures Locked(Apply(s, op), k, op.now)
  {
    SetFactionLineage(s, op.identity, op.nick, op.faction, op.now, op.order);
  }

  lemma RestartLocks(s: State, op: Op, k: Key, before: Time)
    requires op.OpRestart? && Inv(s) && Enumerates(op.order, s.repo.players.Keys)
    requires ClockOk(ClockOf(s.world), before) && before <= op.now && Locked(s, k, before)
    ensures Locked(Apply(s, op), k, op.now)
  {
    hide Restart, Inv;
    Restarts.RestartKeeps(s, op.now, op.rng, op.order);
    assert Restarts.Reborn(Stored(s.users[k]), Apply(s, op).users[k]);
    Restarts.TruncateTwice(s.world.swapUntil);
    Restarts.TruncateTwice(s.world.swapStartedAt);
  }

  /** Only an opening window unlocks a runner. */
  lemma StaysLocked(s: State, op: Op, k: Key, before: Time)
    requires Inv(s) && Sensible(s, op) && ClockOk(ClockOf(s.world), before) && before <= op.now
    requires Locked(s, k, before) && k in Apply(s, op).users && !Opens(s, op)
    ensures Locked(Apply(s, op), k, op.now)
  {
    hide Join, Bind, SetAlias, SetStance, SetFaction, Activity, Status, Disconnect, DisconnectAll, Reconcile, Rename,
      RefreshAll, ClaimDeadDrop, ForcePirate, Tick, Restart;
    OpClock(s, op);
    if op.OpSetFaction? {
      SetFactionLineage(s, op.identity, op.nick, op.faction, op.now, op.order);
      LockedRejects(s, op, k, before);
    } else if op.OpRestart? {
      RestartLocks(s, op, k, before);
    } else {
      OpLineage(s, op);
    }
  }

  lemma StepAccepts(states: seq<State>, ops: seq<Op>, i: nat, k: Key, before: Time)
    requires Run(states, ops) && i < |ops| && Inv(states[i])
    requires ClockOk(ClockOf(states[i].world), before) && before <= ops[i].now
    requires Accepts(states[i], ops[i], k)
    ensures Locked(states[i + 1], k, ops[i].now)
  {
    assert StepAt(states, ops, i);
    AcceptLocks(states[i], ops[i], k, before);
  }

  /** A guest that is renamed takes its lock along. */
  lemma RenameLocks(s: State, k: Key, newNick: Name, now: Time, before: Time)
    requires k in s.users && Moves(s, k, newNick) && Locked(s, k, before) && before <= now
    ensures Locked(RenameAt(s, k, newNick, now), GuestKey(newNick), now)
  {
    hide Advance, LevelMsgs, Queue, Stored, PenaltySeconds, ClampHeat;
    AdvanceFrame(s.users[k], now, s.rules);
  }

  /** The operation does not merge the runner into an account. */
  predicate Unmigrated(s: State, op: Op, k: Key) {
    var m := Migration(s, op);
    m.None? || m.value.origin != k
  }

  /** Only an opening window unlocks a runner, wherever it goes. */
  lemma GoesLocked(s: State, op: Op, k: Key, before: Time)
    requires Inv(s) && Sensible(s, op) && ClockOk(ClockOf(s.world), before) && before <= op.now
    requires Locked(s, k, before) && Unmigrated(s, op, k) && KeyAfter(s, op, k) in Apply(s, op).users && !Opens(s, op)
    ensures Locked(Apply(s, op), KeyAfter(s, op, k), op.now)
  {
    hide Inv, Locked, ClockOk, Opens, Migration, RenameAt, Find;
    if KeyAfter(s, op, k) == k {
      StaysLocked(s, op, k, before);
    } else {
      assert k in s.users by { LockedIn(s, k, before); }
      RenameLocks(s, k, op.newNick, op.now, before);
    }
  }

  lemma LockedIn(s: State, k: Key, now: Time)
    requires Locked(s, k, now)
    ensures k in s.users
  {
  }

  lemma StepLocked(states: seq<State>, ops: seq<Op>, i: nat, k: Key, before: Time)
    requires Run(states, ops) && i < |ops| && Inv(states[i])
    requires ClockOk(ClockOf(states[i].world), before) && before <= ops[i].now
    requires Locked(states[i], k, before) && Unmigrated(states[i], ops[i], k)
    requires KeyAfter(states[i], ops[i], k) in states[i + 1].users && !Opens(states[i], ops[i])
    ensures Locked(states[i + 1], KeyAfter(states[i], ops[i], k), ops[i].now)
  {
    hide Locked, ClockOk, Opens, KeyAfter, Unmigrated, Inv, Apply;
    assert StepAt(states, ops, i);
    GoesLocked(states[i], ops[i], k, before);
  }

  /** Whoever changes keys is a guest. */
  lemma MoversAreGuests(s: State, op: Op)
    requires Inv(s) && Sensible(s, op) && MoveBy(s, op).Some?
    ensures MoveBy(s, op).value.origin.Guest?
  {
    hide JoinFrom, Unbound, Find, Core, Synced;
    match op
    case OpJoin(nick, account, now, order) => MigratableIs(s, nick, account, order);
    case OpBind(nick, to, now, order, joinOrder) => BinderIsGuest(s, nick, to, now, order, joinOrder);
    case OpRename(_, _, _, _) => RenamedIsGuest(s, op);
    case _ =>
  }

  lemma BinderIsGuest(s: State, nick: Name, to: Name, now: Time, order: seq<Key>, joinOrder: seq<Key>)
    requires Kept(s, {}) && JoinFrom(Unbound(s, nick, to, now, order), nick, Some(to), joinOrder).Some?
    ensures JoinFrom(Unbound(s, nick, to, now, order), nick, Some(to), joinOrder).value.Guest?
  {
    hide JoinFrom, SwitchOff, FirstConnected;
    var old_ := SwitchedFrom(s, nick, to, order);
    if old_.Some? { Operations.SwitchOffKeeps(s, old_.value, now); }
    MigratableIs(Unbound(s, nick, to, now, order), nick, Some(to), joinOrder);
  }

  lemma RenamedIsGuest(s: State, op: Op)
    requires op.OpRename? && Kept(s, {}) && MoveBy(s, op).Some?
    ensures MoveBy(s, op).value.origin.Guest?
  {
    hide Find;
    var k := MoveBy(s, op).value.origin;
    assert SoundRunner(k, s.users[k], s.repo.claimed);
  }

  lemma StepAccount(states: seq<State>, ops: seq<Op>, i: nat, k: Key)
    requires Run(states, ops) && i < |ops| && Inv(states[i]) && k.Acct? && k in states[i].users
    ensures k in states[i + 1].users && KeyAfter(states[i], ops[i], k) == k && Unmigrated(states[i], ops[i], k)
  {
    hide Inv, Migration, NickMove, Apply;
    assert StepAt(states, ops, i);
    var s, op := states[i], ops[i];
    if MoveBy(s, op).Some? { MoversAreGuests(s, op); }
    MigrationMoves(s, op);
    if op.OpSetFaction? {
      SetFactionLineage(s, op.identity, op.nick, op.faction, op.now, op.order);
      FactionSet(s, op);
    } else {
      OpLineage(s, op);
    }
  }

  lemma MigrationMoves(s: State, op: Op)
    ensures Migration(s, op).Some? ==> MoveBy(s, op) == Migration(s, op)
  {
  }

  lemma FactionSet(s: State, op: Op)
    requires op.OpSetFaction?
    ensures Apply(s, op) == SetFaction(s, op.identity, op.nick, op.faction, op.now, op.order).0
  {
    hide SetFaction;
  }

  ghost predicate UnmigratedAt(states: seq<State>, ops: seq<Op>, i: nat, m: nat, k: Key)
    requires |states| == |ops| + 1 && i <= m < |ops|
  {
    Unmigrated(states[m], ops[m], Path(states, ops, i, m, k))
  }

  /** The runner that sat at `k` at step `i` is known through step `n`, and merged into no account on the way. */
  ghost predicate Itself(states: seq<State>, ops: seq<Op>, i: nat, n: nat, k: Key)
    requires |states| == |ops| + 1 && i <= n <= |ops|
  {
    Known(states, ops, i, n, k) && forall m :: i <= m < n ==> UnmigratedAt(states, ops, i, m, k)
  }

  lemma ItselfUntil(states: seq<State>, ops: seq<Op>, i: nat, n: nat, k: Key)
    requires |states| == |ops| + 1 && i < n <= |ops| && Itself(states, ops, i, n, k)
    ensures Itself(states, ops, i, n - 1, k) && Path(states, ops, i, n, k) in states[n].users
    ensures Unmigrated(states[n - 1], ops[n - 1], Path(states, ops, i, n - 1, k))
  {
    hide Unmigrated, KeyAfter;
    assert UnmigratedAt(states, ops, i, n - 1, k);
  }

  lemma ItselfOn(states: seq<State>, ops: seq<Op>, i: nat, n: nat, k: Key)
    requires |states| == |ops| + 1 && i < n <= |ops| && Itself(states, ops, i, n - 1, k)
    requires Path(states, ops, i, n, k) in states[n].users
    requires Unmigrated(states[n - 1], ops[n - 1], Path(states, ops, i, n - 1, k))
    ensures Itself(states, ops, i, n, k)
  {
    hide Path, Unmigrated, KeyAfter;
    forall m | i <= m <= n ensures Path(states, ops, i, m, k) in states[m].users {
      if m < n { assert Known(states, ops, i, n - 1, k); }
    }
    forall m | i <= m < n ensures UnmigratedAt(states, ops, i, m, k) {
      if m < n - 1 { assert Itself(states, ops, i, n - 1, k); }
    }
  }

  lemma ItselfFirst(states: seq<State>, ops: seq<Op>, i: nat, k: Key)
    requires |states| == |ops| + 1 && i <= |ops| && k in states[i].users
    ensures Itself(states, ops, i, i, k) && Path(states, ops, i, i, k) == k
  {
  }

  /** An account runner stays itself. */
  lemma {:induction false} AccountsStay(states: seq<State>, ops: seq<Op>, i: nat, j: nat, k: Key)
    requires Run(states, ops) && i <= j <= |ops| && k.Acct? && k in states[i].users
    ensures Itself(states, ops, i, j, k) && Path(states, ops, i, j, k) == k && k in states[j].users
    decreases j
  {
    hide KeyAfter, Unmigrated, Inv, Itself;
    if i < j {
      AccountsStay(states, ops, i, j - 1, k);
      RunKeeps(states, ops, j - 1);
      StepAccount(states, ops, j - 1, k);
      ItselfOn(states, ops, i, j, k);
    } else {
      ItselfFirst(states, ops, i, k);
    }
  }

  /** From an accepted command on, and without an opening, the runner stays locked wherever it goes. */
  lemma {:induction false} LockedRun(states: seq<State>, ops: seq<Op>, i: nat, n: nat, k: Key, before: Time)
    requires Timely(states, ops, before) && i < n <= |ops| && Accepts(states[i], ops[i], k)
    requires forall m :: i < m < n ==> !Opens(states[m], ops[m])
    requires Itself(states, ops, i, n, k)
    ensures Locked(states[n], Path(states, ops, i, n, k), ops[n - 1].now)
    decreases n
  {
    hide Opens, Locked, ClockOk, Accepts, Itself, Unmigrated, KeyAfter, Inv;
    ItselfUntil(states, ops, i, n, k);
    ClockHeld(states, ops, n - 1, before);
    if i < n - 1 {
      LockedRun(states, ops, i, n - 1, k, before);
      StepLocked(states, ops, n - 1, Path(states, ops, i, n - 1, k), ops[n - 2].now);
    } else {
      StepAccepts(states, ops, i, k, LastTime(ops, i, before));
      AcceptStays(states[i], ops[i], k);
    }
  }

  lemma AcceptStays(s: State, op: Op, k: Key)
    requires Accepts(s, op, k)
    ensures KeyAfter(s, op, k) == k
  {
    hide SetFaction, Find;
  }

  /** Between two accepted faction commands of the same runner, renamed or not, a crash window opens. */
  lemma OneRespecPerWindow(states: seq<State>, ops: seq<Op>, i: nat, j: nat, k: Key, before: Time)
    requires Timely(states, ops, before) && i < j < |ops|
    requires Accepts(states[i], ops[i], k) && Accepts(states[j], ops[j], Path(states, ops, i, j, k))
    requires k.Acct? || Itself(states, ops, i, j, k)
    ensures exists m :: i < m < j && Opens(states[m], ops[m])
  {
    hide KeyAfter, Itself, Locked, Inv, Opens, ClockOk, Accepts;
    if forall m :: i < m < j ==> !Opens(states[m], ops[m]) {
      if k.Acct? {
        assert k in states[i].users by { AcceptedIn(states[i], ops[i], k); }
        AccountsStay(states, ops, i, j, k);
      }
      ClockHeld(states, ops, j, before);
      LockedRun(states, ops, i, j, k, before);
      LockedRejects(states[j], ops[j], Path(states, ops, i, j, k), ops[j - 1].now);
    }
  }

  lemma AcceptedIn(s: State, op: Op, k: Key)
    requires Accepts(s, op, k)
    ensures k in s.users
  {
    hide SetFaction;
  }

  /** A faction once chosen changes only by an accepted command inside an open window. */
  lemma FactionFixedOutsideWindows(s: State, op: Op, k: Key)
    requires Inv(s) && Sensible(s, op) && k in s.users && k in Apply(s, op).users
    requires s.users[k].faction != Unaffiliated && Apply(s, op).users[k].faction != s.users[k].faction
    ensures Accepts(s, op, k) && SwapOpen(s.world, op.now) && s.users[k].lastFactionSwapAt < s.world.swapStartedAt
  {
    if op.OpSetFaction? {
      SetFactionLineage(s, op.identity, op.nick, op.faction, op.now, op.order);
    } else {
      OpLineage(s, op);
    }
  }

  /** A tick says that the system crashed exactly when it opens a window, and that it is back when it closes one. */
  lemma WindowsTold(t: TS, now: Time)
    requires now > 0
    ensures var u := SwapTick(t, now);
            var before, after := t.s.world.swapUntil != 0, u.s.world.swapUntil != 0;
            if !before && after then u.out == t.out + [SystemCrash]
            else if before && !after then u.out == t.out + [SystemRestored]
            else u == t
  {
    hide NextSwap, StoredWorld;
  }

  /**
   A command is accepted exactly if the runner is known, the faction is a real and another one, and the runner has
   none yet or is inside a window, opened less than a day ago, in which it has not changed.
   */
  lemma AcceptedExactly(s: State, identity: Option<Key>, nick: Name, faction: Faction, now: Time, order: seq<Key>,
                        before: Time)
    requires ClockOk(ClockOf(s.world), before) && before <= now
    ensures var (t, ok) := SetFaction(s, identity, nick, faction, now, order);
            var hit, w := Find(s.users, identity, nick, order), s.world;
            && (ok <==> faction != Unaffiliated && hit.Some? && var p := s.users[hit.value];
                 && p.faction != faction
                 && (p.faction == Unaffiliated
                     || (w.swapUntil != 0 && w.swapStartedAt <= now < w.swapStartedAt + DAY
                         && p.lastFactionSwapAt < w.swapStartedAt)))
            && if ok then hit.value in t.users && t.users[hit.value].faction == faction else t == s
  {
    hide Advance, LevelMsgs, Queue, Stored, Find;
  }
}
