/** What is remembered over a run, and where a tick's announcements start. */
module News {
  import opened Grid
  import opened Machine
  import opened Invariants
  import opened Runs
  import Windows
  import Ticks
  import Frames
  import Restarts

  // ---- Recent events ----

  lemma LastOfAppend<T>(s: seq<T>, t: seq<T>, n: nat)
    ensures LastOf(LastOf(s, n) + t, n) == LastOf(s + t, n)
  {
  }

  /** What an operation gives the world to remember. */
  function Said(s: State, op: Op): seq<Msg> {
    match op
    case OpTick(now, orders, champion) => TickSteps(s, now, orders, champion).out
    case OpForcePirate(now) => OpenPirateFrequency(TS(s, []), now).out
    case OpClaimDeadDrop(identity, nick, channel, text, now, order) =>
      var hit := ClaimHit(s, identity, nick, channel, text, now, order);
      if hit.None? then [] else [DropClaimed(DisplayName(AdvanceAt(s, hit.value, now).users[hit.value]))]
    case _ => []
  }

  lemma EventRecents(t: TS, now: Time, order: seq<Key>)
    requires Kept(t.s, {})
    ensures CityEventTick(t, now, order).s.world.recent == t.s.world.recent
  {
    var (news, rng) := Pick(t.s, order);
    if news.Event? {
      Ticks.EventAllKeeps(t.s.(rng := rng), order, news.kind, now);
    }
  }

  lemma WorldRecents(t: TS, now: Time, ord: Orders)
    requires Kept(t.s, {}) && Ticks.Told(t)
    ensures WorldSteps(t, now, ord).s.world.recent == t.s.world.recent
  {
    hide NextSwap, RaidStep, SettleAll, CityEventTick;
    var t1 := SwapTick(t, now);
    var t2 := ResolveContract(t1, now);
    var t3 := ResolveRaid(t2, now, ord.raid);
    Ticks.SwapTickKeeps(t, now);
    Ticks.ResolveContractKeeps(t1, now);
    Ticks.ResolveRaidKeeps(t2, now, ord.raid);
    if ContractDue(t1.s.world, now) {
      Ticks.SettleAllKeeps(t1.s, t1.s.world.contract.value.participants, ContractHeld(t1.s), now);
    }
    if t2.s.world.raid.Some? && now >= t2.s.world.raid.value {
      Ticks.RaidStepKeeps(t2.(s := t2.s.(world := t2.s.world.(raid := None))), now, ord.raid);
    }
    EventRecents(DropExpiry(t3, now), now, ord.event);
  }

  lemma OpRecents(s: State, op: Op)
    requires Inv(s) && Sensible(s, op)
    ensures Apply(s, op).world.recent == LastOf(s.world.recent + Said(s, op), MAX_RECENT) || Said(s, op) == []
    ensures Said(s, op) == [] ==> Apply(s, op).world.recent == s.world.recent
  {
    if op.OpTick? {
      Windows.TickTail(s, op.now, op.orders, op.champion);
      WorldRecents(TS(s.(pending := []), []), op.now, op.orders);
    } else if op.OpClaimDeadDrop? {
      var hit := ClaimHit(s, op.identity, op.nick, op.channel, op.text, op.now, op.order);
    } else if op.OpRestart? {
      Restarts.RestartKeeps(s, op.now, op.rng, op.order);
    } else if !op.OpForcePirate? {
      Frames.OpFrame(s, op);
      assert Frames.Besides(Apply(s, op).world).recent == Frames.Besides(s.world).recent;
    }
  }

  ghost predicate SaidAt(states: seq<State>, ops: seq<Op>, said: seq<seq<Msg>>, i: nat)
    requires |states| == |ops| + 1 && |said| == |ops| && i < |ops|
  {
    said[i] == Said(states[i], ops[i])
  }

  /** What each step of a run gave to remember. */
  ghost predicate Transcript(states: seq<State>, ops: seq<Op>, said: seq<seq<Msg>>) {
    Run(states, ops) && |said| == |ops| && forall i :: 0 <= i < |ops| ==> SaidAt(states, ops, said, i)
  }

  function Flat(said: seq<seq<Msg>>, n: nat): seq<Msg>
    requires n <= |said|
  {
    if n == 0 then [] else Flat(said, n - 1) + said[n - 1]
  }

  lemma StepRecents(states: seq<State>, ops: seq<Op>, said: seq<seq<Msg>>, i: nat)
    requires Transcript(states, ops, said) && i < |ops| && |states[i].world.recent| <= MAX_RECENT
    ensures states[i + 1].world.recent == LastOf(states[i].world.recent + said[i], MAX_RECENT)
  {
    RunKeeps(states, ops, i);
    assert StepAt(states, ops, i) && SaidAt(states, ops, said, i);
    OpRecents(states[i], ops[i]);
    if said[i] == [] {
      assert states[i].world.recent + [] == states[i].world.recent;
    }
  }

  /** Recent events are the last twenty of everything ever remembered, restarts included. */
  lemma {:induction false} RecentIsLastTwenty(states: seq<State>, ops: seq<Op>, said: seq<seq<Msg>>, n: nat)
    requires Transcript(states, ops, said) && n <= |ops| && states[0].world.recent == []
    ensures states[n].world.recent == LastOf(Flat(said, n), 20)
  {
    if n > 0 {
      RecentIsLastTwenty(states, ops, said, n - 1);
      StepRecents(states, ops, said, n - 1);
      LastOfAppend(Flat(said, n - 1), said[n - 1], MAX_RECENT);
    }
  }

  // ---- What a tick hands over ----

  /** A tick hands over everything that waited, right after its world events and in order. */
  lemma TickDelivers(s: State, now: Time, ord: Orders, champion: Faction)
    requires Inv(s)
    ensures Windows.Events(s, now, ord).out + s.pending <= TickSteps(s, now, ord, champion).out
  {
    var t0 := TS(s.(pending := []), []);
    Ticks.WorldStepsKeep(t0, now, ord);
    var t1 := Windows.Events(s, now, ord);
    var t2 := t1.(out := t1.out + s.pending);
    Ticks.RunnerStepsKeep(t2, ord.runners, now, champion);
    Ticks.CollisionKeeps(RunnerSteps(t2, ord.runners, now, champion), now, ord.due, ord.pool);
  }
}
