/** Streaks over whole runs: the days paid for never outnumber the days held. */
module StreakRuns {
  import opened Grid
  import opened Progression
  import opened StoreRows
  import opened Machine
  import opened Invariants
  import opened Runs
  import opened Paths
  import opened Streaks
  import Accounts
  import Traces
  import Arrivals
  import Cooling
  import Operations
  import Restarts
  import Roster
  import Windows

  // ---- Every other operation ----

  /** The streak goes on as it was, is over, or starts now. */
  predicate Rests(p: Runner, q: Runner, now: Time) {
    || (q.streakSince == p.streakSince && q.streakDays == p.streakDays)
    || q.streakSince == 0
    || (q.streakSince == now && q.streakDays == 0)
  }

  /** The runner at `k` goes on at `j` without being paid for a day. */
  ghost predicate Unpaid(s: State, t: State, k: Key, j: Key, now: Time) {
    k in s.users && j in t.users && Rests(s.users[k], t.users[j], now)
  }

  lemma EnterRests(s: State, j: Key, nick: Name, account: Option<Name>, now: Time, k: Key)
    requires k in s.users
    ensures Unpaid(s, Enter(s, j, nick, account, now), k, k, now)
  {
    hide Advance, LevelMsgs, Queue, Stagger, Stored, NewRunner;
    AdvanceSteady(s.users[k], now, s.rules);
  }

  lemma JoinRests(s: State, nick: Name, account: Option<Name>, now: Time, order: seq<Key>, k: Key)
    requires Kept(s, {}) && k in s.users
    requires var g := JoinFrom(s, nick, account, order); g.Some? ==> k != JoinKey(nick, account) && k != g.value
    ensures Unpaid(s, Join(s, nick, account, now, order), k, k, now)
  {
    hide Join, JoinFrom, Kept;
    if k != JoinKey(nick, account) {
      Arrivals.JoinLeaves(s, nick, account, now, order, k);
    } else {
      JoinEnters(s, nick, account, now, order);
      EnterRests(s, k, nick, account, now, k);
    }
  }

  lemma JoinEnters(s: State, nick: Name, account: Option<Name>, now: Time, order: seq<Key>)
    requires JoinFrom(s, nick, account, order).None?
    ensures Join(s, nick, account, now, order) == Enter(s, JoinKey(nick, account), nick, account, now)
  {
    hide Enter, JoinFrom;
  }

  lemma SwitchRests(s: State, hit: Key, now: Time, k: Key)
    requires hit in s.users && k in s.users
    ensures Unpaid(s, SwitchOff(s, hit, now), k, k, now)
  {
    hide Advance, LevelMsgs, Queue, Stored, DisplayName;
    AdvanceSteady(s.users[hit], now, s.rules);
  }

  lemma RestsThrough(s: State, t: State, u: State, k: Key, now: Time)
    requires Unpaid(s, t, k, k, now) && Unpaid(t, u, k, k, now)
    ensures Unpaid(s, u, k, k, now)
  {
  }

  lemma BindRests(s: State, nick: Name, to: Name, now: Time, order: seq<Key>, joinOrder: seq<Key>, k: Key)
    requires Inv(s) && k in s.users && !Accounts.Merges(s, OpBind(nick, to, now, order, joinOrder), k)
    ensures Unpaid(s, Bind(s, nick, to, now, order, joinOrder), k, k, now)
  {
    hide Join, SwitchOff, FirstConnected, JoinFrom, Core, Synced, WorldSaved;
    if to.fold != "" {
      var old_, s1 := SwitchedFrom(s, nick, to, order), Unbound(s, nick, to, now, order);
      if old_.Some? {
        SwitchRests(s, old_.value, now, k);
        Operations.SwitchOffKeeps(s, old_.value, now);
      }
      JoinRests(s1, nick, Some(to), now, joinOrder, k);
      RestsThrough(s, s1, Join(s1, nick, Some(to), now, joinOrder), k, now);
    }
  }

  lemma CommandRests(s: State, op: Op, k: Key)
    requires op.OpSetAlias? || op.OpSetStance? || op.OpSetFaction? || op.OpActivity? || op.OpStatus?
          || op.OpClaimDeadDrop?
    requires k in s.users
    ensures Unpaid(s, Apply(s, op), k, k, op.now)
  {
    hide Advance, Find, LevelMsgs, Queue, Stored, AliasTaken, ValidAlias, MaySwap, SwapOpen, PenaltySeconds, Waived,
      ClaimHit, LevelDuration, Max, LastOf, DisplayName;
    AdvanceSteady(s.users[k], op.now, s.rules);
  }

  lemma LeavingRests(s: State, op: Op, k: Key)
    requires op.OpDisconnect? && k in s.users
    ensures Unpaid(s, Apply(s, op), k, k, op.now)
  {
    hide Advance, Find, LevelMsgs, Queue, Stored, PenaltySeconds, DisplayName, ClampHeat, DisconnectHeat, MarkFailed,
      Breaks;
    AdvanceSteady(s.users[k], op.now, s.rules);
  }

  lemma RenameRests(s: State, op: Op, k: Key)
    requires op.OpRename? && k in s.users
    ensures Unpaid(s, Apply(s, op), k, KeyAfter(s, op, k), op.now)
  {
    hide Advance, Find, LevelMsgs, Queue, Stored, PenaltySeconds, ClampHeat, Rekey, Rekeys;
    AdvanceSteady(s.users[k], op.now, s.rules);
  }

  lemma {:induction false} RefreshRests(s: State, order: seq<Key>, now: Time, k: Key)
    requires k in s.users
    ensures k in RefreshAll(s, order, now).users && Steady(s.users[k], RefreshAll(s, order, now).users[k])
  {
    hide Advance, LevelMsgs, Queue, Stored;
    if order != [] {
      RefreshRests(s, order[..|order| - 1], now, k);
      AdvanceSteady(RefreshAll(s, order[..|order| - 1], now).users[k], now,
                    RefreshAll(s, order[..|order| - 1], now).rules);
    }
  }

  lemma PauseRests(s: State, op: Op, k: Key)
    requires op.OpDisconnectAll? && Enumerates(op.order, s.users.Keys) && k in s.users
    ensures Unpaid(s, Apply(s, op), k, k, op.now)
  {
    hide Advance, PauseAll;
    AdvanceSteady(s.users[k], op.now, s.rules);
    Accounts.PausedAll(s, op.order, op.now, k);
  }

  lemma RosterRests(s: State, op: Op, k: Key)
    requires op.OpReconcile? && Enumerates(op.order, s.users.Keys) && k in s.users
    ensures Unpaid(s, Apply(s, op), k, k, op.now)
  {
    hide Advance, Reconcile;
    AdvanceSteady(s.users[k], op.now, s.rules);
    Roster.ReconcileExact(s, op.present, op.grace, op.now, op.order, k);
  }

  lemma RestartRests(s: State, op: Op, k: Key)
    requires op.OpRestart? && Inv(s) && Enumerates(op.order, s.repo.players.Keys) && k in s.users
    ensures Unpaid(s, Apply(s, op), k, k, op.now)
  {
    hide Restart, Inv;
    Restarts.RestartKeeps(s, op.now, op.rng, op.order);
    assert Restarts.Reborn(Stored(s.users[k]), Apply(s, op).users[k]);
  }

  /** Only ticks pay for days: any other operation leaves a streak alone, ends it, or starts one. */
  lemma OnlyTicksPay(s: State, op: Op, k: Key)
    requires Inv(s) && Sensible(s, op) && k in s.users && !Accounts.Merges(s, op, k) && !op.OpTick?
    requires KeyAfter(s, op, k) in Apply(s, op).users
    ensures Unpaid(s, Apply(s, op), k, KeyAfter(s, op, k), op.now)
  {
    hide Join, Bind, Reconcile, RefreshAll, PauseAll, Restart, Kept, WorldSaved, Unpaid, Find, DropCode;
    match op
    case OpJoin(nick, account, now, order) => JoinRests(s, nick, account, now, order, k);
    case OpBind(nick, to, now, order, joinOrder) => BindRests(s, nick, to, now, order, joinOrder, k);
    case OpDisconnect(_, _, _, _) => LeavingRests(s, op, k);
    case OpDisconnectAll(_, _) => PauseRests(s, op, k);
    case OpReconcile(_, _, _, _) => RosterRests(s, op, k);
    case OpTop(now, order) =>
      RefreshRests(s, order, now, k);
      SteadyRests(s, Apply(s, op), k, now);
    case OpRestart(_, _, _) => RestartRests(s, op, k);
    case OpForcePirate(now) => SteadyRests(s, Apply(s, op), k, now);
    case OpRename(_, _, _, _) => RenameRests(s, op, k);
    case _ => CommandRests(s, op, k);
  }

  lemma SteadyRests(s: State, t: State, k: Key, now: Time)
    requires k in s.users && k in t.users && Steady(s.users[k], t.users[k])
    ensures Unpaid(s, t, k, k, now)
  {
  }

  // ---- Outages ----

  /** The runner comes back to the streak it left with. */
  ghost predicate Resumes(p: Runner, t: State, k: Key) {
    k in t.users && t.users[k].streakSince == p.streakSince && t.users[k].streakDays == p.streakDays
  }

  /** The runner comes back to a streak that starts over. */
  ghost predicate StartsOver(t: State, k: Key, now: Time) {
    k in t.users && t.users[k].streakSince == now && t.users[k].streakDays == 0
  }

  /** What leaving makes of the runner's streak. */
  lemma LeftStreak(s: State, k: Key, kind: Kind, now: Time)
    requires k in s.users
    ensures var t := DisconnectAt(s, k, kind, now);
            && k in t.users && !t.users[k].connected && t.users[k].lastSeenAt == now
            && if kind == Netsplit then Resumes(s.users[k], t, k) else t.users[k].streakSince == 0
  {
    hide Advance, LevelMsgs, Queue, Stored, PenaltySeconds, DisplayName, ClampHeat, DisconnectHeat, MarkFailed, Breaks;
    AdvanceSteady(s.users[k], now, s.rules);
  }

  /** A netsplit does not break a running streak if the runner is back within the hour; quitting always does. */
  lemma NetsplitsSpare(s: State, k: Key, kind: Kind, now: Time, nick: Name, account: Option<Name>, later: Time,
                       order: seq<Key>)
    requires k in s.users && k == JoinKey(nick, account)
    requires JoinFrom(DisconnectAt(s, k, kind, now), nick, account, order).None?
    ensures var t := Join(DisconnectAt(s, k, kind, now), nick, account, later, order);
            if kind == Netsplit && s.users[k].streakSince != 0 && later - now <= HOUR then Resumes(s.users[k], t, k)
            else StartsOver(t, k, later)
  {
    hide DisconnectAt, Join, JoinFrom, Arrivals.Pushed;
    var u := DisconnectAt(s, k, kind, now);
    LeftStreak(s, k, kind, now);
    Arrivals.JoinLinks(u, nick, account, later, order);
    Arrivals.ReturnsAsLeft(u, nick, account, later, order);
  }

  /** Nor does an outage of the bot, if the runner is back within an hour of it. */
  lemma OutagesSpare(s: State, k: Key, now: Time, walk: seq<Key>, nick: Name, account: Option<Name>, later: Time,
                     order: seq<Key>)
    requires k in s.users && s.users[k].connected && k == JoinKey(nick, account) && Enumerates(walk, s.users.Keys)
    requires s.users[k].lastSeenAt <= now
    requires JoinFrom(DisconnectAll(s, now, walk), nick, account, order).None?
    ensures var t := Join(DisconnectAll(s, now, walk), nick, account, later, order);
            if s.users[k].streakSince != 0 && later - now <= HOUR then Resumes(s.users[k], t, k)
            else StartsOver(t, k, later)
  {
    hide PauseAll, Join, JoinFrom, Arrivals.Pushed, Advance;
    var u := DisconnectAll(s, now, walk);
    Accounts.PausedAll(s, walk, now, k);
    AdvanceSteady(s.users[k], now, s.rules);
    Cooling.LinkedIsSeen(s.users[k], now, s.rules);
    Arrivals.JoinLinks(u, nick, account, later, order);
    Arrivals.ReturnsAsLeft(u, nick, account, later, order);
  }

  // ---- Whole runs ----

  /** The operation is a tick that pays the runner for another day. */
  predicate Payday(s: State, op: Op, k: Key) {
    op.OpTick? && Pays(s, op.now, op.orders, op.champion, k)
  }

  /** How often the runner that starts at `k` was paid for a day in the first `n` steps, wherever it sat. */
  ghost function Paydays(states: seq<State>, ops: seq<Op>, n: nat, k: Key): nat
    requires |states| == |ops| + 1 && n <= |ops|
  {
    if n == 0 then 0
    else
      Paydays(states, ops, n - 1, k)
      + if Payday(states[n - 1], ops[n - 1], Path(states, ops, 0, n - 1, k)) then 1 else 0
  }

  /** One step of a running streak: paid for exactly at a payday, and then for every day held. */
  predicate Continues(p: Runner, q: Runner, now: Time, pays: bool) {
    if pays then q.streakDays == (now - p.streakSince) / DAY > p.streakDays
    else q.streakDays == p.streakDays || (q.streakSince == now && q.streakDays == 0)
  }

  /** A step continues a running streak, and a payday is announced to the runner. */
  lemma StepContinues(s: State, op: Op, k: Key)
    requires Inv(s) && Sensible(s, op) && k in s.users && !Accounts.Merges(s, op, k)
    requires KeyAfter(s, op, k) in Apply(s, op).users
    requires s.users[k].streakSince == Apply(s, op).users[KeyAfter(s, op, k)].streakSince != 0
    ensures Continues(s.users[k], Apply(s, op).users[KeyAfter(s, op, k)], op.now, Payday(s, op, k))
    ensures Payday(s, op, k) ==> Thanked(Traces.OpOut(s, op), s.users[k], op.now)
  {
    hide Tick, TickSteps, Pays, Inv, Accounts.Merges, DisplayName;
    if op.OpTick? {
      TickStreaks(s, op.now, op.orders, op.champion, k);
    } else {
      OnlyTicksPay(s, op, k);
    }
  }

  /** The streak of the runner that starts at `k` has run since the same instant in all of the first `n` steps. */
  ghost predicate Running(states: seq<State>, ops: seq<Op>, n: nat, k: Key, since: Time)
    requires |states| == |ops| + 1 && n <= |ops| && Accounts.Follows(states, ops, n, k)
  {
    since != 0 && forall m: nat :: m <= n ==> RunsSince(states, ops, m, k, since)
  }

  ghost predicate RunsSince(states: seq<State>, ops: seq<Op>, m: nat, k: Key, since: Time)
    requires |states| == |ops| + 1 && m <= |ops|
  {
    var j := Path(states, ops, 0, m, k);
    j in states[m].users && states[m].users[j].streakSince == since
  }

  lemma RunContinues(states: seq<State>, ops: seq<Op>, i: nat, k: Key, since: Time)
    requires Run(states, ops) && i < |ops| && Inv(states[i]) && since != 0
    requires RunsSince(states, ops, i, k, since) && RunsSince(states, ops, i + 1, k, since)
    requires !Accounts.Merges(states[i], ops[i], Path(states, ops, 0, i, k))
    ensures var j := Path(states, ops, 0, i, k);
            Continues(states[i].users[j], states[i + 1].users[Path(states, ops, 0, i + 1, k)], ops[i].now,
                      Payday(states[i], ops[i], j))
  {
    hide Apply, Continues, Payday, Accounts.Merges, Inv;
    assert StepAt(states, ops, i);
    StepContinues(states[i], ops[i], Path(states, ops, 0, i, k));
  }

  /**
   While a streak runs its paydays number at most the days it says it holds, and at most the whole days since it
   began: no full day on the link is paid for twice.
   */
  lemma {:induction false} PaidAtMostDaily(states: seq<State>, ops: seq<Op>, n: nat, k: Key, start: Time, since: Time)
    requires Accounts.Paced(states, ops, start) && n <= |ops| && Accounts.Follows(states, ops, n, k)
    requires Running(states, ops, n, k, since) && k in states[0].users && states[0].users[k].streakDays >= 0
    ensures var paid := Paydays(states, ops, n, k);
            && paid <= Accounts.At(states, ops, n, k).streakDays
            && (paid > 0 ==> paid <= (Windows.LastTime(ops, n, start) - since) / DAY)
  {
    hide Accounts.Paced, Run, Inv, Accounts.Follows, KeyAfter, Accounts.Merges, Payday;
    if n > 0 {
      Accounts.PacedStep(states, ops, n, start);
      Accounts.FollowsPrefix(states, ops, n, k);
      assert RunsSince(states, ops, n - 1, k, since) && RunsSince(states, ops, n, k, since);
      PaidAtMostDaily(states, ops, n - 1, k, start, since);
      RunKeeps(states, ops, n - 1);
      RunContinues(states, ops, n - 1, k, since);
    }
  }
}
