/**
 What every operation does to the queue of announcements, as a trace: whose level-ups come in, and when what
 waits is taken.
 */
module Traces {
  import opened Grid
  import opened Progression
  import opened StoreRows
  import opened Machine
  import opened Invariants
  import opened Backlog
  import opened Runs
  import Accounts
  import Ledger
  import Raids
  import Ranking
  import Roster

  // ---- What each operation does to the queue ----

  /** The runner at `k` is caught up, and its level-ups are queued. */
  function Climb(s: State, k: Key, now: Time): Use
    requires k in s.users
  {
    Put(k, LevelMsgs(s.users[k], Advance(s.users[k], now, s.rules)))
  }

  /** Every linked runner on the list is caught up. */
  function LinkedTrace(s: State, order: seq<Key>, now: Time): seq<Use> {
    if order == [] then []
    else
      var k := order[|order| - 1];
      LinkedTrace(s, order[..|order| - 1], now)
      + if k in s.users && s.users[k].connected then [Climb(s, k, now)] else []
  }

  /** Every runner missing for the whole grace period is caught up. */
  function DroppedTrace(s: State, order: seq<Key>, present: set<Name>, grace: int, now: Time): seq<Use> {
    if order == [] then []
    else
      var k := order[|order| - 1];
      DroppedTrace(s, order[..|order| - 1], present, grace, now)
      + if k in s.users && Roster.Expired(s, k, present, grace, now) then [Climb(s, k, now)] else []
  }

  function EnterTrace(s: State, k: Key, now: Time): seq<Use> {
    if k in s.users && s.users[k].connected then [Climb(s, k, now)] else []
  }

  function JoinTrace(s: State, nick: Name, account: Option<Name>, now: Time, order: seq<Key>): seq<Use> {
    var k, g := JoinKey(nick, account), JoinFrom(s, nick, account, order);
    if g.None? then EnterTrace(s, k, now)
    else [Climb(s, g.value, now)] + EnterTrace(Migrate(s, g.value, account.value, nick, now), k, now)
  }

  function BindTrace(s: State, nick: Name, account: Name, now: Time, order: seq<Key>, joinOrder: seq<Key>): seq<Use> {
    var old_ := SwitchedFrom(s, nick, account, order);
    if account.fold == "" then []
    else
      (if old_.Some? then [Climb(s, old_.value, now)] else [])
      + JoinTrace(Unbound(s, nick, account, now, order), nick, Some(account), now, joinOrder)
  }

  /** The runner a command is accepted for. */
  function Hit(s: State, op: Op): (hit: Option<Key>)
    ensures hit.Some? ==> hit.value in s.users
  {
    match op
    case OpSetAlias(identity, nick, alias, now, order) =>
      if SetAlias(s, identity, nick, alias, now, order).1 then Find(s.users, identity, nick, order) else None
    case OpSetStance(identity, nick, stance, now, order) => Find(s.users, identity, nick, order)
    case OpSetFaction(identity, nick, faction, now, order) =>
      if SetFaction(s, identity, nick, faction, now, order).1 then Find(s.users, identity, nick, order) else None
    case OpActivity(identity, nick, channel, kind, length, now, order) =>
      if EqualFold(channel, s.rules.gameChannel) then Find(s.users, identity, nick, order) else None
    case OpStatus(identity, nick, now, order) => Find(s.users, identity, nick, order)
    case OpDisconnect(nick, kind, now, order) => Online(s, Find(s.users, None, nick, order))
    case OpRename(nick, newNick, now, order) => Online(s, Find(s.users, None, nick, order))
    case OpClaimDeadDrop(identity, nick, channel, text, now, order) =>
      ClaimHit(s, identity, nick, channel, text, now, order)
    case _ => None
  }

  function Online(s: State, hit: Option<Key>): Option<Key> {
    if hit.Some? && hit.value in s.users && s.users[hit.value].connected then hit else None
  }

  /** A participant is caught up once for every seat, at what the seats before made of it. */
  function SettleTrace(s: State, team: seq<Key>, success: bool, now: Time): seq<Use> {
    if team == [] then []
    else
      var rest, j := team[..|team| - 1], team[|team| - 1];
      SettleTrace(s, rest, success, now)
      + if j !in s.users then []
        else
          var p := Ledger.Seated(s.users[j], multiset(rest)[j], success, now, s.rules);
          [Put(j, LevelMsgs(p, Advance(p, now, s.rules)))]
  }

  function ContractTrace(s: State, now: Time): seq<Use> {
    if ContractDue(s.world, now) then SettleTrace(s, s.world.contract.value.participants, ContractHeld(s), now) else []
  }

  function RaidTrace(s: State, now: Time, order: seq<Key>): seq<Use> {
    if Ledger.RaidDue(s.world, now) then LinkedTrace(s, order, now) else []
  }

  function CityTrace(s: State, now: Time, order: seq<Key>): seq<Use> {
    if Due(s.world.nextCityEventAt, now) && Pick(s, order).0.Event? then LinkedTrace(s, order, now) else []
  }

  /** The world's part of a tick: contract, raid and city event, in that order. */
  function WorldTrace(t: TS, now: Time, ord: Orders): seq<Use> {
    var t1 := SwapTick(t, now);
    var t2 := ResolveContract(t1, now);
    var t4 := DropExpiry(ResolveRaid(t2, now, ord.raid), now);
    ContractTrace(t1.s, now) + RaidTrace(t2.s, now, ord.raid) + CityTrace(t4.s, now, ord.event)
  }

  /** After an encounter the runner is caught up again, at once. */
  function EncounterTrace(t: TS, k: Key, now: Time, champion: Faction): seq<Use>
    requires k in t.s.users
  {
    if !Due(t.s.users[k].nextEncounterAt, now) then []
    else
      var s := Encounter(t, k, champion).s;
      [Climb(SetAt(s, k, Rearmed(s.users[k], now, s.rules)), k, now)]
  }

  /** A linked runner's turn: caught up, met by ICE perhaps, and everything queued so far is delivered. */
  function TurnTrace(t: TS, k: Key, now: Time, champion: Faction): seq<Use> {
    if k !in t.s.users || !t.s.users[k].connected then []
    else
      var t3 := DriftStep(StreakStep(t.(s := AdvanceAt(t.s, k, now)), k, now), k, now);
      [Climb(t.s, k, now)] + EncounterTrace(t3, k, now, champion) + [Take, Take]
  }

  function WalkTrace(t: TS, order: seq<Key>, now: Time, champion: Faction): seq<Use> {
    if order == [] then []
    else
      var rest := order[..|order| - 1];
      WalkTrace(t, rest, now, champion)
      + TurnTrace(RunnerSteps(t, rest, now, champion), order[|order| - 1], now, champion)
  }

  /** A tick takes the backlog first, the world's news gathers, the turns and the end of the tick deliver it. */
  function TickTrace(s: State, now: Time, ord: Orders, champion: Faction): seq<Use> {
    var t := TS(s.(pending := []), []);
    var u := WorldSteps(t, now, ord);
    [Take] + WorldTrace(t, now, ord) + WalkTrace(u.(out := u.out + s.pending), ord.runners, now, champion) + [Take]
  }

  /** Every use an operation makes of the queue, in order. */
  function OpTrace(s: State, op: Op): seq<Use> {
    match op
    case OpJoin(nick, account, now, order) => JoinTrace(s, nick, account, now, order)
    case OpBind(nick, to, now, order, joinOrder) => BindTrace(s, nick, to, now, order, joinOrder)
    case OpDisconnectAll(now, order) => LinkedTrace(s, order, now)
    case OpReconcile(present, grace, now, order) => DroppedTrace(s, order, present, grace, now)
    case OpTop(now, order) => LinkedTrace(s, order, now)
    case OpTick(now, orders, champion) => TickTrace(s, now, orders, champion)
    case OpRestart(_, _, _) => [Drop]
    case _ => var hit := Hit(s, op); if hit.None? then [] else [Climb(s, hit.value, op.now)]
  }

  /** What the operation hands back to be announced. */
  function OpOut(s: State, op: Op): seq<Msg> {
    if op.OpTick? then TickSteps(s, op.now, op.orders, op.champion).out else []
  }

  // ---- From a step of the machine to its trace ----

  /** The step makes these uses of the queue, and the level announcements it says are what was delivered. */
  ghost predicate Queues(t: TS, u: TS, uses: seq<Use>) {
    && u.s.pending == Waiting(t.s.pending, uses)
    && (AllUps(t.s.pending) ==> AllUps(u.s.pending) && Ups(u.out) == Ups(t.out) + Delivered(t.s.pending, uses))
  }

  /** Nobody new appears, and every level gained is announced. */
  ghost predicate Climbed(s: State, t: State, uses: seq<Use>) {
    t.users.Keys <= s.users.Keys && forall k :: k in t.users ==> t.users[k].level == s.users[k].level + Gained(uses, k)
  }

  ghost predicate Traced(t: TS, u: TS, uses: seq<Use>) {
    Queues(t, u, uses) && Climbed(t.s, u.s, uses)
  }

  lemma QueuesThrough(t: TS, u: TS, v: TS, a: seq<Use>, b: seq<Use>)
    requires Queues(t, u, a) && Queues(u, v, b)
    ensures Queues(t, v, a + b)
  {
    hide Waiting, Delivered, Ups, AllUps;
    UsedInTurn(t.s.pending, a, b);
  }

  lemma TracedThrough(t: TS, u: TS, v: TS, a: seq<Use>, b: seq<Use>)
    requires Traced(t, u, a) && Traced(u, v, b)
    ensures Traced(t, v, a + b)
  {
    hide Queues, Gained;
    QueuesThrough(t, u, v, a, b);
    forall k | k in v.s.users ensures v.s.users[k].level == t.s.users[k].level + Gained(a + b, k) {
      GainedInTurn(a, b, k);
    }
  }

  /** The step leaves the queue and every level alone and announces no level. */
  ghost predicate Silent(t: TS, u: TS) {
    && u.s.pending == t.s.pending && Ups(u.out) == Ups(t.out) && u.s.users.Keys == t.s.users.Keys
    && forall k :: k in t.s.users ==> u.s.users[k].level == t.s.users[k].level
  }

  lemma SilentTraced(t: TS, u: TS)
    requires Silent(t, u)
    ensures Traced(t, u, [])
  {
  }

  lemma SilentThrough(t: TS, u: TS, v: TS)
    requires Silent(t, u) && Silent(u, v)
    ensures Silent(t, v)
  {
    hide Ups;
  }

  lemma SaysOther(out: seq<Msg>, m: Msg)
    requires !m.LevelUp?
    ensures Ups(out + [m]) == Ups(out)
  {
    assert (out + [m])[..|out|] == out;
  }

  lemma ClimbedBy(p: Runner, now: Time, r: Tuning)
    ensures var q := Advance(p, now, r);
            LevelsIn(LevelMsgs(p, q)) == q.level - p.level && AllUps(LevelMsgs(p, q))
  {
    AdvanceFrame(p, now, r);
  }

  lemma OneUse(start: seq<Msg>, use: Use)
    ensures Waiting(start, [use]) == if use.Put? then Queue(start, use.messages) else []
    ensures Delivered(start, [use]) == if use.Take? then start else []
    ensures forall k :: Gained([use], k) == if use.Put? && use.who == k then LevelsIn(use.messages) else 0
  {
    assert [use][..0] == [];
  }

  lemma ClimbQueues(t: TS, u: TS, k: Key, now: Time)
    requires k in t.s.users && u.s.pending == AdvanceAt(t.s, k, now).pending && Ups(u.out) == Ups(t.out)
    ensures Queues(t, u, [Climb(t.s, k, now)])
  {
    hide Advance, LevelMsgs, Ups, Waiting, Delivered, Gained;
    ClimbedBy(t.s.users[k], now, t.s.rules);
    OneUse(t.s.pending, Climb(t.s, k, now));
  }

  /** One runner is caught up and changed without touching its level. */
  lemma ClimbTraced(t: TS, u: TS, k: Key, now: Time)
    requires k in t.s.users && k in u.s.users && u.s.users == t.s.users[k := u.s.users[k]]
    requires u.s.users[k].level == Advance(t.s.users[k], now, t.s.rules).level
    requires u.s.pending == AdvanceAt(t.s, k, now).pending && Ups(u.out) == Ups(t.out)
    ensures Traced(t, u, [Climb(t.s, k, now)])
  {
    hide Advance, LevelMsgs, Ups, Waiting, Delivered, Gained, Queues;
    ClimbQueues(t, u, k, now);
    ClimbedBy(t.s.users[k], now, t.s.rules);
    OneUse(t.s.pending, Climb(t.s, k, now));
  }

  lemma TakeTraced(t: TS)
    ensures Traced(t, TakePending(t), [Take])
  {
    hide Waiting, Delivered, Gained, Ups;
    OneUse(t.s.pending, Take);
    if AllUps(t.s.pending) {
      UpsAppend(t.out, t.s.pending);
      UpsOnly(t.s.pending);
    }
  }

  // ---- Catching up a list of runners ----

  lemma {:induction false} LinkedSame(s: State, t: State, order: seq<Key>, now: Time)
    requires t.users == s.users && t.rules == s.rules
    ensures LinkedTrace(t, order, now) == LinkedTrace(s, order, now)
  {
    hide Advance, LevelMsgs;
    if order != [] {
      LinkedSame(s, t, order[..|order| - 1], now);
    }
  }

  lemma NothingMore(t: TS, u: TS, a: seq<Use>)
    requires Traced(t, u, a)
    ensures Traced(t, u, a + [])
  {
    hide Queues, Climbed;
    assert a + [] == a;
  }

  lemma {:induction false} SettleTraced(s: State, out: seq<Msg>, team: seq<Key>, success: bool, now: Time)
    ensures Traced(TS(s, out), TS(SettleAll(s, team, success, now), out), SettleTrace(s, team, success, now))
  {
    hide Advance, LevelMsgs, Queue, Stored, LevelDuration, ClampHeat, Ledger.Seated, Queues, Max;
    if team == [] {
      SilentTraced(TS(s, out), TS(s, out));
    } else {
      var rest, j := team[..|team| - 1], team[|team| - 1];
      var s1 := SettleAll(s, rest, success, now);
      SettleTraced(s, out, rest, success, now);
      if j in s.users {
        Ledger.SettledPerSeat(s, rest, success, now, j);
        ClimbTraced(TS(s1, out), TS(SettleAt(s1, j, success, now), out), j, now);
        TracedThrough(TS(s, out), TS(s1, out), TS(SettleAt(s1, j, success, now), out),
                      SettleTrace(s, rest, success, now), [Climb(s1, j, now)]);
      } else {
        NothingMore(TS(s, out), TS(s1, out), SettleTrace(s, rest, success, now));
      }
    }
  }

  lemma {:induction false} CallTraced(s: State, out: seq<Msg>, order: seq<Key>, now: Time)
    requires Distinct(order)
    ensures Traced(TS(s, out), TS(AdvanceTeam(s, order, now), out), LinkedTrace(s, order, now))
  {
    hide Advance, LevelMsgs, Queue, Queues;
    if order == [] {
      SilentTraced(TS(s, out), TS(s, out));
    } else {
      var rest, k := order[..|order| - 1], order[|order| - 1];
      var s1 := AdvanceTeam(s, rest, now);
      CallTraced(s, out, rest, now);
      assert order == rest + [k] && k !in rest;
      Raids.TeamAdvances(s, rest, now);
      if k in s.users && s.users[k].connected {
        ClimbTraced(TS(s1, out), TS(CallAt(s1, k, now), out), k, now);
        TracedThrough(TS(s, out), TS(s1, out), TS(CallAt(s1, k, now), out), LinkedTrace(s, rest, now),
                      [Climb(s1, k, now)]);
      } else {
        NothingMore(TS(s, out), TS(s1, out), LinkedTrace(s, rest, now));
      }
    }
  }

  lemma HitTraced(s: State, out: seq<Msg>, k: Key, event: CityEvent, now: Time)
    requires k in s.users && s.users[k].connected
    ensures Traced(TS(s, out), TS(EventAt(s, k, event, now), out), [Climb(s, k, now)])
  {
    hide Advance, LevelMsgs, Queue, Stored, ProgressChange, Overclocked, Traced;
    ClimbTraced(TS(s, out), TS(EventAt(s, k, event, now), out), k, now);
  }

  lemma {:induction false} EventTraced(s: State, out: seq<Msg>, order: seq<Key>, event: CityEvent, now: Time)
    requires Distinct(order)
    ensures Traced(TS(s, out), TS(EventAll(s, order, event, now), out), LinkedTrace(s, order, now))
  {
    hide Advance, LevelMsgs, Queue, Queues, HitAt, Stored;
    if order == [] {
      SilentTraced(TS(s, out), TS(s, out));
    } else {
      var rest, k := order[..|order| - 1], order[|order| - 1];
      var s1 := EventAll(s, rest, event, now);
      EventTraced(s, out, rest, event, now);
      assert order == rest + [k] && k !in rest;
      if k in s.users { Ledger.EventElsewhere(s, rest, event, now, k); }
      if k in s.users && s.users[k].connected {
        HitTraced(s1, out, k, event, now);
        TracedThrough(TS(s, out), TS(s1, out), TS(EventAt(s1, k, event, now), out), LinkedTrace(s, rest, now),
                      [Climb(s1, k, now)]);
      } else {
        NothingMore(TS(s, out), TS(s1, out), LinkedTrace(s, rest, now));
      }
    }
  }

  lemma {:induction false} PauseTraced(s: State, order: seq<Key>, now: Time)
    requires Distinct(order)
    ensures Traced(TS(s, []), TS(PauseAll(s, order, now), []), LinkedTrace(s, order, now))
  {
    hide Advance, LevelMsgs, Queue, Queues, Stored;
    if order == [] {
      SilentTraced(TS(s, []), TS(s, []));
    } else {
      var rest, k := order[..|order| - 1], order[|order| - 1];
      var s1 := PauseAll(s, rest, now);
      PauseTraced(s, rest, now);
      assert order == rest + [k] && k !in rest;
      if k in s.users { Accounts.PausedAll(s, rest, now, k); }
      if k in s.users && s.users[k].connected {
        ClimbTraced(TS(s1, []), TS(PauseAt(s1, k, now), []), k, now);
        TracedThrough(TS(s, []), TS(s1, []), TS(PauseAt(s1, k, now), []), LinkedTrace(s, rest, now),
                      [Climb(s1, k, now)]);
      } else {
        NothingMore(TS(s, []), TS(s1, []), LinkedTrace(s, rest, now));
      }
    }
  }

  lemma {:induction false} RefreshTraced(s: State, order: seq<Key>, now: Time)
    requires Distinct(order)
    ensures Traced(TS(s, []), TS(RefreshAll(s, order, now), []), LinkedTrace(s, order, now))
  {
    hide Advance, LevelMsgs, Queue, Queues, Stored;
    if order == [] {
      SilentTraced(TS(s, []), TS(s, []));
    } else {
      var rest, k := order[..|order| - 1], order[|order| - 1];
      var s1 := RefreshAll(s, rest, now);
      RefreshTraced(s, rest, now);
      assert order == rest + [k] && k !in rest;
      if k in s.users { Ranking.CaughtUp(s, rest, now, k); }
      if k in s.users && s.users[k].connected {
        ClimbTraced(TS(s1, []), TS(RefreshAt(s1, k, now), []), k, now);
        TracedThrough(TS(s, []), TS(s1, []), TS(RefreshAt(s1, k, now), []), LinkedTrace(s, rest, now),
                      [Climb(s1, k, now)]);
      } else {
        NothingMore(TS(s, []), TS(s1, []), LinkedTrace(s, rest, now));
      }
    }
  }

  lemma DropTraced(s: State, k: Key, now: Time)
    requires k in s.users
    ensures Traced(TS(s, []), TS(DropAt(s, k, now), []), [Climb(s, k, now)])
  {
    hide Advance, LevelMsgs, Queue, Stored, DisplayName, Traced;
    ClimbTraced(TS(s, []), TS(DropAt(s, k, now), []), k, now);
  }

  lemma CheckTraced(s: State, k: Key, present: set<Name>, grace: int, now: Time)
    requires k in s.users
    ensures Traced(TS(s, []), TS(ReconcileAt(s, k, present, grace, now), []),
                   if Roster.Expired(s, k, present, grace, now) then [Climb(s, k, now)] else [])
  {
    hide DropAt, Queues, Advance, LevelMsgs;
    if Roster.Expired(s, k, present, grace, now) {
      var s1 := s.(missing := s.missing - {k});
      SilentTraced(TS(s, []), TS(s1, []));
      DropTraced(s1, k, now);
      TracedThrough(TS(s, []), TS(s1, []), TS(DropAt(s1, k, now), []), [], [Climb(s1, k, now)]);
      assert [] + [Climb(s1, k, now)] == [Climb(s, k, now)];
    } else {
      SilentTraced(TS(s, []), TS(ReconcileAt(s, k, present, grace, now), []));
    }
  }

  lemma {:induction false} RosterTraced(s: State, order: seq<Key>, present: set<Name>, grace: int, now: Time)
    requires Distinct(order) && forall k :: k in order ==> k in s.users
    ensures Traced(TS(s, []), TS(ReconcileAll(s, order, present, grace, now), []),
                   DroppedTrace(s, order, present, grace, now))
  {
    hide Advance, LevelMsgs, Queues, Queue, ReconcileAt, Traced, DisplayName, Stored;
    if order == [] {
      SilentTraced(TS(s, []), TS(s, []));
    } else {
      var rest, k := order[..|order| - 1], order[|order| - 1];
      var s1 := ReconcileAll(s, rest, present, grace, now);
      RosterTraced(s, rest, present, grace, now);
      assert order == rest + [k] && k !in rest;
      Roster.ReconcileAllChecks(s, rest, present, grace, now);
      CheckTraced(s1, k, present, grace, now);
      assert Roster.Since(s1.missing, k) == Roster.Since(s.missing, k);
      assert Roster.Expired(s1, k, present, grace, now) == Roster.Expired(s, k, present, grace, now);
      TracedThrough(TS(s, []), TS(s1, []), TS(ReconcileAt(s1, k, present, grace, now), []),
                    DroppedTrace(s, rest, present, grace, now),
                    if Roster.Expired(s, k, present, grace, now) then [Climb(s, k, now)] else []);
    }
  }

  // ---- The world's part of a tick ----

  lemma SwapSilent(t: TS, now: Time)
    ensures Silent(t, SwapTick(t, now)) && SwapTick(t, now).s.users == t.s.users
  {
    hide NextSwap, Ups;
    SaysOther(t.out, SystemRestored);
    SaysOther(t.out, SystemCrash);
  }

  lemma ContractTraced(t: TS, now: Time)
    ensures Traced(t, ResolveContract(t, now), ContractTrace(t.s, now))
  {
    hide SettleAll, SettleTrace, ContractHeld, Queues, Ups, Climbed;
    if ContractDue(t.s.world, now) {
      var c, held := t.s.world.contract.value, ContractHeld(t.s);
      var u := t.(s := SettleAll(t.s, c.participants, held, now));
      var m := if held then ContractComplete else ContractFailed(c.droppedBy);
      SettleTraced(t.s, t.out, c.participants, held, now);
      SaysOther(t.out, m);
      SilentTraced(u, ResolveContract(t, now));
      TracedThrough(t, u, ResolveContract(t, now), ContractTrace(t.s, now), []);
      assert ContractTrace(t.s, now) + [] == ContractTrace(t.s, now);
    } else {
      SilentTraced(t, t);
    }
  }

  lemma {:induction false} PaySilent(s: State, out: seq<Msg>, team: seq<Key>, won: bool)
    requires forall k :: k in team ==> k in s.users
    ensures Silent(TS(s, out), TS(PayTeam(s, team, won), out))
  {
    hide Stored, LevelDuration, Max, ClampHeat, Ups;
    if team != [] {
      PaySilent(s, out, team[..|team| - 1], won);
    }
  }

  lemma RaidStepTraced(t: TS, now: Time, order: seq<Key>)
    requires Distinct(order)
    ensures Traced(t, RaidStep(t, now, order), LinkedTrace(t.s, order, now))
  {
    hide AdvanceTeam, PayTeam, ConnectedIn, TeamWins, LinkedTrace, Queues, Ups, Climbed;
    var s := AdvanceTeam(t.s, order, now);
    var u, team := t.(s := s), ConnectedIn(s.users, order);
    CallTraced(t.s, t.out, order, now);
    SaysOther(t.out, RaidEmpty);
    SaysOther(t.out, RaidDown(|team|));
    SaysOther(t.out, RaidHolds(|team|));
    if team != [] { PaySilent(Skip(s), t.out, team, TeamWins(s, team)); }
    SilentTraced(u, RaidStep(t, now, order));
    TracedThrough(t, u, RaidStep(t, now, order), LinkedTrace(t.s, order, now), []);
    assert LinkedTrace(t.s, order, now) + [] == LinkedTrace(t.s, order, now);
  }

  lemma RaidTraced(t: TS, now: Time, order: seq<Key>)
    requires Distinct(order)
    ensures Traced(t, ResolveRaid(t, now, order), RaidTrace(t.s, now, order))
  {
    hide RaidStep, LinkedTrace, Queues, Climbed, Ups;
    if Ledger.RaidDue(t.s.world, now) {
      var u := t.(s := Ledger.RaidTaken(t.s));
      SilentTraced(t, u);
      RaidStepTraced(u, now, order);
      LinkedSame(t.s, u.s, order, now);
      TracedThrough(t, u, RaidStep(u, now, order), [], LinkedTrace(u.s, order, now));
      assert [] + LinkedTrace(u.s, order, now) == LinkedTrace(t.s, order, now);
    } else {
      SilentTraced(t, t);
    }
  }

  lemma ExpirySilent(t: TS, now: Time)
    ensures Silent(t, DropExpiry(t, now))
  {
    hide Ups;
    SaysOther(t.out, DropExpired);
  }

  lemma NewsSilent(t: TS, now: Time, order: seq<Key>)
    ensures Silent(t, OpenPirateFrequency(t, now)) && Silent(t, StartRaid(t, now))
            && Silent(t, StartContract(t, now, order))
  {
    hide Ups, DropCode, ConnectedIn, Names;
    var garbled := DropCode(t.s.rng, DROP_LENGTH).1;
    var team := ConnectedIn(t.s.users, order);
    SaysOther(t.out, PirateFrequency(garbled));
    SaysOther(t.out, RaidAlert);
    SaysOther(t.out, ContractStarted(Names(t.s.users, team[..Min(|team|, t.s.rules.contractMax)])));
  }

  lemma CityStepTraced(t: TS, now: Time, order: seq<Key>)
    requires Distinct(order)
    ensures Traced(t, CityEventStep(t, now, order),
                   if Pick(t.s, order).0.Event? then LinkedTrace(t.s, order, now) else [])
  {
    hide EventAll, LinkedTrace, OpenPirateFrequency, StartRaid, StartContract, Queues, Climbed, Ups, Pick;
    var (news, rng) := Pick(t.s, order);
    var u := t.(s := t.s.(rng := rng));
    if news.Event? {
      var v := u.(s := EventAll(u.s, order, news.kind, now));
      SilentTraced(t, u);
      EventTraced(u.s, u.out, order, news.kind, now);
      LinkedSame(t.s, u.s, order, now);
      SaysOther(v.out, CityNews(news.kind));
      SilentTraced(v, CityEventStep(t, now, order));
      TracedThrough(t, u, v, [], LinkedTrace(u.s, order, now));
      TracedThrough(t, v, CityEventStep(t, now, order), [] + LinkedTrace(u.s, order, now), []);
      assert [] + LinkedTrace(u.s, order, now) + [] == LinkedTrace(t.s, order, now);
    } else {
      NewsSilent(u, now, order);
      SilentThrough(t, u, CityEventStep(t, now, order));
      SilentTraced(t, CityEventStep(t, now, order));
    }
  }

  lemma CityTraced(t: TS, now: Time, order: seq<Key>)
    requires Distinct(order)
    ensures Traced(t, CityEventTick(t, now, order), CityTrace(t.s, now, order))
  {
    hide CityEventStep, LinkedTrace, Queues, Climbed, Ups, Pick;
    if Due(t.s.world.nextCityEventAt, now) {
      CityStepTraced(t, now, order);
      SilentTraced(CityEventStep(t, now, order), CityEventTick(t, now, order));
      TracedThrough(t, CityEventStep(t, now, order), CityEventTick(t, now, order), CityTrace(t.s, now, order), []);
      assert CityTrace(t.s, now, order) + [] == CityTrace(t.s, now, order);
    } else {
      SilentTraced(t, t);
    }
  }

  lemma WorldTraced(t: TS, now: Time, ord: Orders)
    requires Distinct(ord.raid) && Distinct(ord.event)
    ensures Traced(t, WorldSteps(t, now, ord), WorldTrace(t, now, ord))
  {
    hide SwapTick, ResolveContract, ResolveRaid, DropExpiry, CityEventTick, ContractTrace, RaidTrace, CityTrace,
      Traced, Silent;
    var t1 := SwapTick(t, now);
    var t2 := ResolveContract(t1, now);
    var t3 := ResolveRaid(t2, now, ord.raid);
    var t4 := DropExpiry(t3, now);
    var a, b, c := ContractTrace(t1.s, now), RaidTrace(t2.s, now, ord.raid), CityTrace(t4.s, now, ord.event);
    SwapSilent(t, now);
    SilentTraced(t, t1);
    ContractTraced(t1, now);
    TracedThrough(t, t1, t2, [], a);
    RaidTraced(t2, now, ord.raid);
    TracedThrough(t, t2, t3, [] + a, b);
    ExpirySilent(t3, now);
    SilentTraced(t3, t4);
    TracedThrough(t, t3, t4, [] + a + b, []);
    CityTraced(t4, now, ord.event);
    TracedThrough(t, t4, CityEventTick(t4, now, ord.event), [] + a + b + [], c);
    assert [] + a + b + [] + c == a + b + c;
  }

  // ---- A runner's turn ----

  lemma StreakSilent(t: TS, k: Key, now: Time)
    requires k in t.s.users
    ensures Silent(t, StreakStep(t, k, now))
  {
    hide LevelDuration, Max, DisplayName, Ups;
    var p := t.s.users[k];
    SaysOther(t.out, GhostProtocol(DisplayName(p), (now - p.streakSince) / STREAK_DAY));
  }

  lemma DriftSilent(t: TS, k: Key, now: Time)
    requires k in t.s.users
    ensures Silent(t, DriftStep(t, k, now))
  {
    hide OtherDistrict, DisplayName, Ups;
    var p := t.s.users[k];
    SaysOther(t.out, Drift(DisplayName(p), p.district, OtherDistrict(p.district, Draw(t.s.rng, 4))));
  }

  /** A roll of the drop table touches no level and queues nothing. */
  lemma LootSilent(s: State, out: seq<Msg>, k: Key, exclude: Option<ItemName>)
    requires k in s.users
    ensures Silent(TS(s, out), TS(RareLoot(s, k, exclude), out))
  {
    hide FreshArtifact, Unclaimed, RareLootChance, Ups;
  }

  lemma EncounterSilent(t: TS, k: Key, champion: Faction)
    requires k in t.s.users
    ensures Silent(t, Encounter(t, k, champion))
  {
    hide RareLoot, LootSlot, IceWinChance, LevelDuration, StanceReward, StanceHeat, DisplayName, AppendUnique, Ups;
    var s, p := t.s, t.s.users[k];
    var rng := Rest(s.rng);
    if Draw(s.rng, 100) < IceWinChance(p, champion) {
      var s1 := SetAt(s, k, IceWon(p, Draw(rng, 25) == 0, s.rules)).(rng := Rest(rng));
      LootSilent(s1, t.out, k, None);
      var hit := LootSlot(s1, k, None);
      SaysOther(t.out, if hit.Some? then IceUnique(DisplayName(p), ArtifactName(hit.value))
                else IceWin(DisplayName(p)));
    } else {
      SaysOther(t.out, IceLoss(DisplayName(p)));
    }
  }

  lemma RearmTraced(t: TS, k: Key, now: Time)
    requires k in t.s.users
    ensures Traced(t, t.(s := Rearm(t.s, k, now)),
                   [Climb(SetAt(t.s, k, Rearmed(t.s.users[k], now, t.s.rules)), k, now)])
    ensures k in Rearm(t.s, k, now).users
  {
    hide Advance, LevelMsgs, Queue, Queues, Ups;
    var u := t.(s := SetAt(t.s, k, Rearmed(t.s.users[k], now, t.s.rules)));
    SilentTraced(t, u);
    ClimbTraced(u, t.(s := Rearm(t.s, k, now)), k, now);
    TracedThrough(t, u, t.(s := Rearm(t.s, k, now)), [], [Climb(u.s, k, now)]);
    assert [] + [Climb(u.s, k, now)] == [Climb(u.s, k, now)];
  }

  lemma EncounterTraced(t: TS, k: Key, now: Time, champion: Faction)
    requires k in t.s.users
    ensures Traced(t, EncounterStep(t, k, now, champion), EncounterTrace(t, k, now, champion))
    ensures k in EncounterStep(t, k, now, champion).s.users
  {
    hide Encounter, Rearm, Traced, Silent, Climb;
    if Due(t.s.users[k].nextEncounterAt, now) {
      var u := Encounter(t, k, champion);
      EncounterSilent(t, k, champion);
      SilentKeys(t, u, k);
      SilentTraced(t, u);
      RearmTraced(u, k, now);
      TracedThrough(t, u, EncounterStep(t, k, now, champion), [], EncounterTrace(t, k, now, champion));
      assert [] + EncounterTrace(t, k, now, champion) == EncounterTrace(t, k, now, champion);
    } else {
      SilentSelf(t);
      SilentTraced(t, t);
    }
  }

  lemma SilentKeys(t: TS, u: TS, k: Key)
    requires Silent(t, u) && k in t.s.users
    ensures k in u.s.users && u.s.pending == t.s.pending
  {
  }

  lemma SilentSelf(t: TS)
    ensures Silent(t, t)
  {
  }

  lemma RetiredSilent(s: State, out: seq<Msg>, k: Key, slot: Slot)
    requires k in s.users
    ensures Silent(TS(s, out), TS(RetireAt(s, k, slot), out)) && k in RetireAt(s, k, slot).users
  {
    hide StandardItem, Ups;
  }

  lemma BurnSilent(t: TS, k: Key, slot: Slot)
    requires k in t.s.users
    ensures Silent(t, BurnSlot(t, k, slot))
  {
    hide RareLoot, LootSlot, RetireAt, DisplayName, Ups;
    RetiredSilent(t.s, t.out, k, slot);
    var p := t.s.users[k];
    if BurnsOut(p, slot) {
      var s, item := RetireAt(t.s, k, slot), p.equipment[slot];
      var hit := LootSlot(s, k, Some(item.name));
      LootSilent(s, t.out, k, Some(item.name));
      SaysOther(t.out, BurnedOut(DisplayName(p), item.name, if hit.Some? then Some(ArtifactName(hit.value)) else None));
    }
  }

  lemma {:induction false} BurnsSilent(t: TS, k: Key, n: nat)
    requires k in t.s.users && n <= |SLOTS|
    ensures Silent(t, BurnSlots(t, k, n))
  {
    hide BurnSlot, Ups;
    if n > 0 {
      BurnsSilent(t, k, n - 1);
      BurnSilent(BurnSlots(t, k, n - 1), k, SLOTS[n - 1]);
    }
  }

  lemma SaveSilent(t: TS, k: Key)
    requires k in t.s.users
    ensures Silent(t, t.(s := SaveAt(t.s, k)))
  {
  }

  lemma UpkeepTraced(t: TS, k: Key)
    requires k in t.s.users
    ensures Traced(t, UpkeepStep(t, k), [Take, Take])
  {
    hide BurnSlots, Traced, Silent, Stored;
    var t1 := TakePending(t);
    var t2 := BurnSlots(t1, k, |SLOTS|);
    var t3 := TakePending(t2);
    TakeTraced(t);
    BurnsSilent(t1, k, |SLOTS|);
    SilentTraced(t1, t2);
    TakeTraced(t2);
    SaveSilent(t3, k);
    SilentTraced(t3, UpkeepStep(t, k));
    TracedThrough(t, t1, t2, [Take], []);
    TracedThrough(t, t2, t3, [Take] + [], [Take]);
    TracedThrough(t, t3, UpkeepStep(t, k), [Take] + [] + [Take], []);
    assert [Take] + [] + [Take] + [] == [Take, Take];
  }

  lemma CaughtUpTraced(t: TS, k: Key, now: Time)
    requires k in t.s.users
    ensures Traced(t, t.(s := AdvanceAt(t.s, k, now)), [Climb(t.s, k, now)])
  {
    hide Traced, Advance, LevelMsgs, Queue, Ups;
    ClimbTraced(t, t.(s := AdvanceAt(t.s, k, now)), k, now);
  }

  lemma LiveTraced(t: TS, k: Key, now: Time, champion: Faction)
    requires k in t.s.users && t.s.users[k].connected
    ensures Traced(t, LiveStep(t, k, now, champion), TurnTrace(t, k, now, champion))
  {
    hide Traced, Silent, StreakStep, DriftStep, EncounterStep, UpkeepStep, EncounterTrace, Climb, Advance, LevelMsgs,
      Queue;
    var t1 := t.(s := AdvanceAt(t.s, k, now));
    CaughtUpTraced(t, k, now);
    var t2 := StreakStep(t1, k, now);
    StreakSilent(t1, k, now);
    SilentKeys(t1, t2, k);
    SilentTraced(t1, t2);
    var t3 := DriftStep(t2, k, now);
    DriftSilent(t2, k, now);
    SilentKeys(t2, t3, k);
    SilentTraced(t2, t3);
    var t4, met := EncounterStep(t3, k, now, champion), EncounterTrace(t3, k, now, champion);
    EncounterTraced(t3, k, now, champion);
    UpkeepTraced(t4, k);
    var a := [Climb(t.s, k, now)];
    TracedThrough(t, t1, t2, a, []);
    TracedThrough(t, t2, t3, a + [], []);
    TracedThrough(t, t3, t4, a + [] + [], met);
    TracedThrough(t, t4, UpkeepStep(t4, k), a + [] + [] + met, [Take, Take]);
    assert a + [] + [] + met + [Take, Take] == a + met + [Take, Take];
  }

  lemma {:induction false} RetiresSilent(t: TS, k: Key, n: nat)
    requires k in t.s.users && n <= |SLOTS|
    ensures Silent(t, RetireSlots(t, k, n))
  {
    hide RetireSlot, Ups;
    if n > 0 {
      RetiresSilent(t, k, n - 1);
      RetireSilent(RetireSlots(t, k, n - 1), k, SLOTS[n - 1]);
    }
  }

  lemma RetireSilent(t: TS, k: Key, slot: Slot)
    requires k in t.s.users
    ensures Silent(t, RetireSlot(t, k, slot))
  {
    hide StandardItem, DisplayName, Ups;
    var p := t.s.users[k];
    if Holds(p, slot) {
      SaysOther(t.out, WentDark(DisplayName(p), p.equipment[slot].name));
    }
  }

  lemma AbandonSilent(t: TS, k: Key)
    requires k in t.s.users
    ensures Silent(t, Abandon(t, k))
  {
    hide RetireSlots, Stored, Ups;
    var u := RetireSlots(TS(t.s, []), k, |SLOTS|);
    RetiresSilent(TS(t.s, []), k, |SLOTS|);
    assert Ups(u.out) == Ups([]) == [] by { UpsOnly([]); }
    UpsAppend(t.out, u.out);
  }

  lemma TurnTraced(t: TS, k: Key, now: Time, champion: Faction)
    ensures Traced(t, RunnerStep(t, k, now, champion), TurnTrace(t, k, now, champion))
  {
    hide Abandon, LiveStep, Ups, EncounterTrace, StreakStep, DriftStep, Climb;
    if k !in t.s.users {
      SilentTraced(t, t);
    } else if Pruned(t.s.users[k], now, t.s.rules) {
      PruneTraced(t, k);
    } else if OfflineLonger(t.s.users[k], now, t.s.rules.artifactRelease) {
      AbandonSilent(t, k);
      SilentTraced(t, Abandon(t, k));
    } else if t.s.users[k].connected {
      LiveTraced(t, k, now, champion);
    } else {
      SilentTraced(t, t);
    }
  }

  lemma PruneTraced(t: TS, k: Key)
    ensures Traced(t, t.(s := PruneAt(t.s, k)), [])
  {
    hide Ups;
  }

  lemma {:induction false} WalkTraced(t: TS, order: seq<Key>, now: Time, champion: Faction)
    ensures Traced(t, RunnerSteps(t, order, now, champion), WalkTrace(t, order, now, champion))
  {
    hide RunnerStep, TurnTrace, Traced, Silent;
    if order == [] {
      SilentSelf(t);
      SilentTraced(t, t);
    } else {
      var rest, k := order[..|order| - 1], order[|order| - 1];
      var u := RunnerSteps(t, rest, now, champion);
      WalkTraced(t, rest, now, champion);
      TurnTraced(u, k, now, champion);
      TracedThrough(t, u, RunnerStep(u, k, now, champion), WalkTrace(t, rest, now, champion),
                    TurnTrace(u, k, now, champion));
    }
  }

  // ---- Collisions ----

  lemma BlowsSilent(s: State, out: seq<Msg>, w: Key, l: Key)
    requires w in s.users && l in s.users && w != l
    ensures Silent(TS(s, out), TS(Blows(s, w, l), out))
  {
    hide LevelDuration, Max, CollisionLoss, DamagedDrone, AppendUnique, ClampHeat, Ups;
  }

  lemma TheftSilent(s: State, out: seq<Msg>, w: Key, l: Key)
    requires w in s.users && l in s.users && w != l
    ensures Silent(TS(s, out), TS(Theft(s, w, l), out))
  {
    hide StandardItem, TheftSlot, UniqueSlots, Max, Transfer, Ups;
  }

  lemma SeparateSilent(s: State, out: seq<Msg>, w: Key, l: Key, now: Time)
    requires w in s.users && l in s.users && w != l
    ensures Silent(TS(s, out), TS(Separate(s, w, l, now), out))
  {
    hide Stored, Ups;
  }

  lemma AftermathSilent(t: TS, w: Key, l: Key, now: Time, round: Option<nat>)
    requires w in t.s.users && l in t.s.users && w != l
    ensures Silent(t, Aftermath(t, w, l, now, round))
  {
    hide Blows, Theft, Separate, TheftSlot, DisplayName, Ups;
    var s := Blows(t.s, w, l);
    BlowsSilent(t.s, t.out, w, l);
    TheftSilent(s, t.out, w, l);
    SeparateSilent(Theft(s, w, l), t.out, w, l, now);
    var hit := TheftSlot(s, l);
    var stolen := if hit.Some? then Some(s.users[l].equipment[hit.value].name) else None;
    SaysOther(t.out, Collision(round, DisplayName(s.users[w]), DisplayName(s.users[l]), stolen));
  }

  lemma BoutSilent(t: TS, a: Key, b: Key, now: Time)
    requires a in t.s.users && b in t.s.users && a != b
    ensures Silent(t, Bout(t, a, b, now))
  {
    hide Aftermath, Upset, Round, Ups, CountBout;
    var s := RecordBout(t.s, a, b);
    CountedLevel(t.s.users[a], b);
    CountedLevel(t.s.users[b], a);
    var u := t.(s := Skip(Skip(s)));
    var (w, l) := if Upset(s, a, b) then (b, a) else (a, b);
    AftermathSilent(u, w, l, now, Round(s.users, a, b));
  }

  lemma CountedLevel(p: Runner, rival: Key)
    ensures CountBout(p, rival).level == p.level
  {
  }

  lemma CollisionSilent(t: TS, now: Time, order: seq<Key>, poolOrder: seq<Key>)
    ensures Silent(t, CollisionStep(t, now, order, poolOrder))
  {
    hide Bout, Opponent, CollisionDue, Ups;
    var due := CollisionDue(t.s.users, order, now);
    if due != [] {
      var a := due[Draw(t.s.rng, |due|)];
      assert a in due;
      var s := Skip(t.s);
      var pool := Pool(s.users, poolOrder, a);
      if pool != [] {
        var (b, rng) := Opponent(s, pool, a);
        BoutSilent(t.(s := s.(rng := rng)), a, b, now);
      }
    }
  }

  // ---- The tick ----

  predicate Puts(uses: seq<Use>) { forall use <- uses :: use.Put? }

  lemma {:induction false} PutsDeliverNothing(start: seq<Msg>, uses: seq<Use>)
    requires Puts(uses)
    ensures Delivered(start, uses) == []
  {
    if uses != [] {
      assert uses[|uses| - 1] in uses;
      PutsDeliverNothing(start, uses[..|uses| - 1]);
    }
  }

  lemma {:induction false} LinkedPuts(s: State, order: seq<Key>, now: Time)
    ensures Puts(LinkedTrace(s, order, now))
  {
    hide LevelMsgs, Advance;
    if order != [] { LinkedPuts(s, order[..|order| - 1], now); }
  }

  lemma {:induction false} SettlePuts(s: State, team: seq<Key>, success: bool, now: Time)
    ensures Puts(SettleTrace(s, team, success, now))
  {
    hide LevelMsgs, Advance, Ledger.Seated;
    if team != [] { SettlePuts(s, team[..|team| - 1], success, now); }
  }

  lemma WorldPuts(t: TS, now: Time, ord: Orders)
    ensures Puts(WorldTrace(t, now, ord))
  {
    hide SwapTick, ResolveContract, ResolveRaid, DropExpiry, LinkedTrace, SettleTrace, ContractHeld, Pick;
    var t1 := SwapTick(t, now);
    var t2 := ResolveContract(t1, now);
    var t4 := DropExpiry(ResolveRaid(t2, now, ord.raid), now);
    LinkedPuts(t2.s, ord.raid, now);
    LinkedPuts(t4.s, ord.event, now);
    if ContractDue(t1.s.world, now) {
      SettlePuts(t1.s, t1.s.world.contract.value.participants, ContractHeld(t1.s), now);
    }
  }

  /** The backlog, taken first, is handed over behind the world's own news. */
  lemma CarriedTraced(s: State, u: TS, uses: seq<Use>)
    requires Traced(TS(s.(pending := []), []), u, uses) && Puts(uses)
    ensures Traced(TS(s, []), u.(out := u.out + s.pending), [Take] + uses)
  {
    hide Waiting, Delivered, Gained, Ups;
    UsedInTurn(s.pending, [Take], uses);
    OneUse(s.pending, Take);
    forall k ensures Gained([Take] + uses, k) == Gained(uses, k) {
      GainedInTurn([Take], uses, k);
    }
    PutsDeliverNothing([], uses);
    UpsAppend(u.out, s.pending);
    assert Ups([]) == [] by { UpsOnly([]); }
    if AllUps(s.pending) { UpsOnly(s.pending); }
  }

  lemma TickTraced(s: State, now: Time, ord: Orders, champion: Faction)
    requires Distinct(ord.raid) && Distinct(ord.event)
    ensures Traced(TS(s, []), TickSteps(s, now, ord, champion), TickTrace(s, now, ord, champion))
  {
    hide WorldSteps, RunnerSteps, CollisionStep, WorldTrace, WalkTrace, Traced, Silent, Puts;
    var t := TS(s.(pending := []), []);
    var u := WorldSteps(t, now, ord);
    var a := WorldTrace(t, now, ord);
    WorldTraced(t, now, ord);
    WorldPuts(t, now, ord);
    CarriedTraced(s, u, a);
    var v := u.(out := u.out + s.pending);
    var w, b := RunnerSteps(v, ord.runners, now, champion), WalkTrace(v, ord.runners, now, champion);
    WalkTraced(v, ord.runners, now, champion);
    TracedThrough(TS(s, []), v, w, [Take] + a, b);
    var x := CollisionStep(w, now, ord.due, ord.pool);
    CollisionSilent(w, now, ord.due, ord.pool);
    SilentTraced(w, x);
    TracedThrough(TS(s, []), w, x, [Take] + a + b, []);
    TakeTraced(x);
    TracedThrough(TS(s, []), x, TakePending(x), [Take] + a + b + [], [Take]);
    assert [Take] + a + b + [] + [Take] == [Take] + a + b + [Take];
  }
}
