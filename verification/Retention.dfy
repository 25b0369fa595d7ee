/** Whom a tick forgets, and whose artifacts it takes back. */
module Retention {
  import opened Grid
  import opened Progression
  import opened StoreRows
  import opened Machine
  import opened Invariants
  import opened Upheavals
  import Economy
  import Ledger
  import Ticks

  /** The runner was last seen longer ago than the limit. */
  predicate GoneFor(p: Runner, now: Time, limit: int) { p.lastSeenAt != 0 && p.lastSeenAt < now - limit }

  /** Every artifact is back in the pool and its slot has standard gear of the level; all else in the gear stands. */
  predicate Stripped(p: Runner, q: Runner) {
    forall slot :: if Holds(p, slot) then slot in q.equipment && q.equipment[slot] == StandardItem(slot, p.level)
                   else GearIn(q.equipment, slot) == GearIn(p.equipment, slot)
  }

  /** What becomes of an offline runner: forgotten, stripped of artifacts, or left as it is. */
  predicate Retained(p: Runner, q: Option<Runner>, now: Time, r: Rules) {
    && (q.None? <==> p.guest && GoneFor(p, now, r.guestRetention))
    && (q.Some? && GoneFor(p, now, r.artifactRelease) ==> Stripped(p, q.value))
    && (q.Some? && !GoneFor(p, now, r.artifactRelease) ==> q.value.equipment == p.equipment)
  }

  lemma {:induction false} SlotsRetired(t: TS, k: Key, n: nat, i: nat)
    requires k in t.s.users && n <= |SLOTS| && i < |SLOTS|
    ensures var p, q, slot := t.s.users[k], RetireSlots(t, k, n).s.users[k], SLOTS[i];
            && q.level == p.level
            && if i < n && Holds(p, slot) then slot in q.equipment && q.equipment[slot] == StandardItem(slot, p.level)
               else GearIn(q.equipment, slot) == GearIn(p.equipment, slot)
  {
    hide StandardItem, DisplayName;
    if n > 0 { SlotsRetired(t, k, n - 1, i); }
  }

  lemma AbandonStrips(t: TS, k: Key)
    requires k in t.s.users
    ensures k in Abandon(t, k).s.users && Stripped(t.s.users[k], Abandon(t, k).s.users[k])
  {
    hide RetireSlots, StandardItem, Stored;
    var p, q := t.s.users[k], Abandon(t, k).s.users[k];
    forall slot
      ensures if Holds(p, slot) then slot in q.equipment && q.equipment[slot] == StandardItem(slot, p.level)
              else GearIn(q.equipment, slot) == GearIn(p.equipment, slot)
    {
      var i := Economy.SlotListed(slot);
      SlotsRetired(TS(t.s, []), k, |SLOTS|, i);
    }
  }

  lemma TurnRetains(t: TS, k: Key, now: Time, champion: Faction)
    requires k in t.s.users && !t.s.users[k].connected
    ensures Retained(t.s.users[k], RowOf(RunnerStep(t, k, now, champion).s.users, k), now, t.s.rules)
  {
    hide Abandon, LiveStep, Stripped;
    if OfflineLonger(t.s.users[k], now, t.s.rules.artifactRelease) { AbandonStrips(t, k); }
  }

  lemma {:induction false} WalkRetains(t: TS, order: seq<Key>, now: Time, champion: Faction, k: Key)
    requires Kept(t.s, {}) && k in t.s.users && k in order && Distinct(order) && !t.s.users[k].connected
    ensures Retained(t.s.users[k], RowOf(RunnerSteps(t, order, now, champion).s.users, k), now, t.s.rules)
  {
    hide RunnerStep, Core, Synced, Retained;
    var rest, j := order[..|order| - 1], order[|order| - 1];
    var u := RunnerSteps(t, rest, now, champion);
    assert order == rest + [j];
    Ticks.RunnerStepsKeep(t, rest, now, champion);
    if j == k {
      Ledger.WalkElsewhere(t, rest, now, champion, k);
      TurnRetains(u, k, now, champion);
    } else {
      Ticks.RunnerStepKeeps(u, j, now, champion);
      assert RowOf(RunnerStep(u, j, now, champion).s.users, k) == RowOf(u.s.users, k);
      WalkRetains(t, rest, now, champion, k);
    }
  }

  /** Collisions are between linked runners only. */
  lemma OfflineUntouched(t: TS, now: Time, order: seq<Key>, poolOrder: seq<Key>, k: Key)
    requires Kept(t.s, {}) && (k in t.s.users ==> !t.s.users[k].connected)
    ensures RowOf(CollisionStep(t, now, order, poolOrder).s.users, k) == RowOf(t.s.users, k)
  {
    hide Bout, Opponent, CollisionDue, Others, Kept;
    var due := CollisionDue(t.s.users, order, now);
    if due != [] {
      var a := due[Draw(t.s.rng, |due|)];
      assert a in due;
      var s := Skip(t.s);
      var pool := Pool(s.users, poolOrder, a);
      if pool != [] {
        var (b, rng) := Opponent(s, pool, a);
        assert Kept(s.(rng := rng), {}) by { RngIrrelevant(t.s, rng); }
        Ticks.BoutKeeps(t.(s := s.(rng := rng)), a, b, now);
      }
    }
  }

  lemma RngIrrelevant(s: State, rng: Rng)
    requires Kept(s, {})
    ensures Kept(s.(rng := rng), {})
  {
  }

  lemma MeetRetains(u: TS, ord: Orders, now: Time, champion: Faction, k: Key)
    requires Kept(u.s, {}) && Enumerates(ord.runners, u.s.users.Keys) && k in u.s.users && !u.s.users[k].connected
    ensures var t := CollisionStep(RunnerSteps(u, ord.runners, now, champion), now, ord.due, ord.pool);
            Retained(u.s.users[k], RowOf(t.s.users, k), now, u.s.rules)
  {
    hide RunnerSteps, CollisionStep, Kept, Retained;
    var v := RunnerSteps(u, ord.runners, now, champion);
    Ticks.RunnerStepsKeep(u, ord.runners, now, champion);
    WalkRetains(u, ord.runners, now, champion, k);
    OfflineUntouched(v, now, ord.due, ord.pool, k);
  }

  lemma RetainedAlike(p: Runner, q: Runner, r: Option<Runner>, now: Time, rules: Rules)
    requires Spared(p, q) && !p.connected && Retained(q, r, now, rules)
    ensures Retained(p, r, now, rules)
  {
  }

  lemma WorldRules(s: State, now: Time, ord: Orders)
    requires Inv(s)
    ensures WorldSteps(TS(s.(pending := []), []), now, ord).s.rules == s.rules
  {
    hide WorldSteps;
    Ticks.PendingIrrelevant(s);
    Ticks.WorldStepsKeep(TS(s.(pending := []), []), now, ord);
  }

  /**
   A tick forgets exactly the guests not seen for longer than the retention, and takes the artifacts of exactly those
   offline for longer than the release time; nobody else offline loses or gains gear.
   */
  lemma TickRetains(s: State, now: Time, ord: Orders, champion: Faction, k: Key)
    requires Inv(s) && Walks(ord, s.users.Keys) && k in s.users && !s.users[k].connected
    ensures Retained(s.users[k], RowOf(Tick(s, now, ord, champion).users, k), now, s.rules)
  {
    hide WorldSteps, RunnerSteps, CollisionStep, Kept, WorldSaved, LastOf, StoredWorld, Retained;
    var t := WorldSteps(TS(s.(pending := []), []), now, ord);
    WorldKept(s, now, ord);
    WorldKeys(s, now, ord);
    WorldRules(s, now, ord);
    WorldSpares(s, now, ord, k);
    MeetRetains(t.(out := t.out + s.pending), ord, now, champion, k);
    RetainedAlike(s.users[k], t.s.users[k], RowOf(Tick(s, now, ord, champion).users, k), now, s.rules);
  }

  /** Nobody linked is ever forgotten, or cut off, by a tick. */
  lemma TickForgetsNobodyLinked(s: State, now: Time, ord: Orders, champion: Faction, k: Key)
    requires Inv(s) && k in s.users && s.users[k].connected
    ensures k in Tick(s, now, ord, champion).users && Tick(s, now, ord, champion).users[k].connected
  {
    hide TickSteps, LastOf, StoredWorld;
    Ticks.TickStepsKeep(s, now, ord, champion);
  }
}
