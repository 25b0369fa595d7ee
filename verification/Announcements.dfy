/**
 Announcements over whole runs. Every level gained is queued once, and ticks hand over what is queued, in
 order, each announcement at most once.
 */
module Announcements {
  import opened Grid
  import opened Progression
  import opened StoreRows
  import opened Machine
  import opened Invariants
  import opened Backlog
  import opened Traces
  import opened Runs
  import opened Paths
  import Accounts
  import Operations
  import Restarts

  // ---- Every operation's use of the queue ----

  lemma NoQueue(s: State, t: State)
    requires t.pending == s.pending
    ensures Queues(TS(s, []), TS(t, []), [])
  {
  }

  lemma EnterQueues(s: State, k: Key, nick: Name, account: Option<Name>, now: Time)
    ensures Queues(TS(s, []), TS(Enter(s, k, nick, account, now), []), EnterTrace(s, k, now))
  {
    hide Queues, Advance, LevelMsgs, Queue, Stored, Stagger, NewRunner;
    var t := Enter(s, k, nick, account, now);
    if k in s.users && s.users[k].connected { ClimbQueues(TS(s, []), TS(t, []), k, now); } else { NoQueue(s, t); }
  }

  lemma JoinQueues(s: State, nick: Name, account: Option<Name>, now: Time, order: seq<Key>)
    ensures Queues(TS(s, []), TS(Join(s, nick, account, now, order), []), JoinTrace(s, nick, account, now, order))
  {
    hide Enter, Queues, EnterTrace, Climb, Migratable;
    var k, g := JoinKey(nick, account), JoinFrom(s, nick, account, order);
    if g.Some? {
      var s1 := Migrate(s, g.value, account.value, nick, now);
      MigrateQueues(s, g.value, account.value, nick, now);
      EnterQueues(s1, k, nick, account, now);
      QueuesThrough(TS(s, []), TS(s1, []), TS(Enter(s1, k, nick, account, now), []), [Climb(s, g.value, now)],
                    EnterTrace(s1, k, now));
      SavedQueues(s, Enter(s1, k, nick, account, now), Join(s, nick, account, now, order),
                  JoinTrace(s, nick, account, now, order));
    } else {
      EnterQueues(s, k, nick, account, now);
    }
  }

  lemma MigrateQueues(s: State, g: Key, account: Name, nick: Name, now: Time)
    requires g in s.users
    ensures Queues(TS(s, []), TS(Migrate(s, g, account, nick, now), []), [Climb(s, g, now)])
  {
    hide Queues, Advance, LevelMsgs, Queue, Stored, Climb;
    ClimbQueues(TS(s, []), TS(Migrate(s, g, account, nick, now), []), g, now);
  }

  /** Saving the world leaves the queue alone. */
  lemma SavedQueues(s: State, t: State, u: State, uses: seq<Use>)
    requires Queues(TS(s, []), TS(t, []), uses) && u.pending == t.pending
    ensures Queues(TS(s, []), TS(u, []), uses)
  {
  }

  lemma SwitchQueues(s: State, k: Key, now: Time)
    requires k in s.users
    ensures Queues(TS(s, []), TS(SwitchOff(s, k, now), []), [Climb(s, k, now)])
  {
    hide Queues, Advance, LevelMsgs, Queue, Stored, DisplayName, Climb;
    ClimbQueues(TS(s, []), TS(SwitchOff(s, k, now), []), k, now);
  }

  lemma BindQueues(s: State, nick: Name, account: Name, now: Time, order: seq<Key>, joinOrder: seq<Key>)
    ensures Queues(TS(s, []), TS(Bind(s, nick, account, now, order, joinOrder), []),
                   BindTrace(s, nick, account, now, order, joinOrder))
  {
    hide Join, JoinTrace, SwitchOff, Queues, Climb, FirstConnected;
    if account.fold == "" {
      NoQueue(s, s);
    } else {
      var old_, s1 := SwitchedFrom(s, nick, account, order), Unbound(s, nick, account, now, order);
      var a := if old_.Some? then [Climb(s, old_.value, now)] else [];
      if old_.Some? { SwitchQueues(s, old_.value, now); } else { NoQueue(s, s1); }
      var t := Join(s1, nick, Some(account), now, joinOrder);
      JoinQueues(s1, nick, Some(account), now, joinOrder);
      QueuesThrough(TS(s, []), TS(s1, []), TS(t, []), a, JoinTrace(s1, nick, Some(account), now, joinOrder));
      SavedQueues(s, t, Bind(s, nick, account, now, order, joinOrder),
                  BindTrace(s, nick, account, now, order, joinOrder));
    }
  }

  /** Commands, and leaving or being renamed: whoever is hit is caught up. */
  predicate Commands(op: Op) {
    || op.OpSetAlias? || op.OpSetStance? || op.OpSetFaction? || op.OpActivity? || op.OpStatus?
    || op.OpDisconnect? || op.OpRename? || op.OpClaimDeadDrop?
  }

  lemma CommandHits(s: State, op: Op)
    requires op.OpSetAlias? || op.OpSetStance? || op.OpSetFaction? || op.OpActivity? || op.OpStatus?
    ensures Hit(s, op).None? ==> Apply(s, op) == s
    ensures Hit(s, op).Some? ==> Apply(s, op).pending == AdvanceAt(s, Hit(s, op).value, op.now).pending
    ensures Hit(s, op).Some? ==> HitOnly(s, op, Hit(s, op).value)
  {
    hide Advance, Find, LevelMsgs, Queue, Stored, AliasTaken, ValidAlias, MaySwap, SwapOpen, PenaltySeconds, Waived;
  }

  /** The one runner hit comes out at the level it was caught up to. */
  predicate HitOnly(s: State, op: Op, hit: Key)
    requires hit in s.users
  {
    var t := Apply(s, op);
    && hit in t.users && t.users == s.users[hit := t.users[hit]]
    && t.users[hit].level == Advance(s.users[hit], op.now, s.rules).level
  }

  lemma ClaimHits(s: State, op: Op)
    requires op.OpClaimDeadDrop?
    ensures Hit(s, op).None? ==> Apply(s, op) == s
    ensures Hit(s, op).Some? ==> Apply(s, op).pending == AdvanceAt(s, Hit(s, op).value, op.now).pending
    ensures Hit(s, op).Some? ==> HitOnly(s, op, Hit(s, op).value)
  {
    hide Advance, ClaimHit, LevelMsgs, Queue, Stored, LevelDuration, Max, LastOf, DisplayName;
  }

  lemma LeavingHits(s: State, op: Op)
    requires op.OpDisconnect?
    ensures Hit(s, op).None? ==> Apply(s, op) == s
    ensures Hit(s, op).Some? ==> Apply(s, op).pending == AdvanceAt(s, Hit(s, op).value, op.now).pending
    ensures Hit(s, op).Some? ==> HitOnly(s, op, Hit(s, op).value)
  {
    hide Advance, Find, LevelMsgs, Queue, Stored, PenaltySeconds, DisplayName, ClampHeat, DisconnectHeat, MarkFailed,
      Breaks;
  }

  lemma RenameHits(s: State, op: Op)
    requires op.OpRename?
    ensures Hit(s, op).None? ==> Apply(s, op) == s
    ensures Hit(s, op).Some? ==> Apply(s, op).pending == AdvanceAt(s, Hit(s, op).value, op.now).pending
    ensures Hit(s, op).Some? && MoveBy(s, op).None? ==> HitOnly(s, op, Hit(s, op).value)
  {
    hide Advance, Find, LevelMsgs, Queue, Stored, PenaltySeconds, ClampHeat, Rekey, Rekeys;
  }

  lemma HitQueues(s: State, op: Op)
    requires Commands(op)
    ensures Queues(TS(s, []), TS(Apply(s, op), []), OpTrace(s, op))
  {
    hide Apply, Hit, Advance, LevelMsgs, Queue, Queues, Climb;
    if op.OpDisconnect? { LeavingHits(s, op); }
    else if op.OpRename? { RenameHits(s, op); }
    else if op.OpClaimDeadDrop? { ClaimHits(s, op); }
    else { CommandHits(s, op); }
    var hit := Hit(s, op);
    if hit.Some? { ClimbQueues(TS(s, []), TS(Apply(s, op), []), hit.value, op.now); } else { NoQueue(s, s); }
  }

  lemma RestartQueues(s: State, op: Op)
    requires op.OpRestart? && Inv(s) && Enumerates(op.order, s.repo.players.Keys)
    ensures Queues(TS(s, []), TS(Apply(s, op), []), [Drop])
  {
    hide Restart, Waiting, Delivered;
    Restarts.RestartKeeps(s, op.now, op.rng, op.order);
    OneUse(s.pending, Drop);
  }

  /** Every operation leaves the queue as its trace says, and the levels a tick announces are what was delivered. */
  lemma OpQueues(s: State, op: Op)
    requires Inv(s) && Sensible(s, op)
    ensures Queues(TS(s, []), TS(Apply(s, op), OpOut(s, op)), OpTrace(s, op))
  {
    hide Join, Bind, Reconcile, RefreshAll, PauseAll, TickSteps, Restart, JoinTrace, BindTrace, LinkedTrace,
      DroppedTrace, TickTrace, Kept, WorldSaved, Climbed, Queues, DropCode, ReconcileAll;
    match op
    case OpJoin(nick, account, now, order) => JoinQueues(s, nick, account, now, order);
    case OpBind(nick, to, now, order, joinOrder) => BindQueues(s, nick, to, now, order, joinOrder);
    case OpDisconnectAll(now, order) =>
      PauseTraced(s, order, now);
      SavedQueues(s, PauseAll(s, order, now), Apply(s, op), LinkedTrace(s, order, now));
    case OpReconcile(present, grace, now, order) =>
      RosterTraced(s, order, present, grace, now);
      ReconcilePending(s, present, grace, now, order);
      SavedQueues(s, ReconcileAll(s, order, present, grace, now), Apply(s, op), OpTrace(s, op));
    case OpTop(now, order) => RefreshTraced(s, order, now);
    case OpTick(now, orders, champion) =>
      TickTraced(s, now, orders, champion);
      RememberedQueues(s, TickSteps(s, now, orders, champion), OpTrace(s, op));
    case OpRestart(_, _, _) => RestartQueues(s, op);
    case OpForcePirate(now) => NoQueue(s, Apply(s, op));
    case _ => HitQueues(s, op);
  }

  lemma ReconcilePending(s: State, present: set<Name>, grace: int, now: Time, order: seq<Key>)
    ensures Reconcile(s, present, grace, now, order).pending == ReconcileAll(s, order, present, grace, now).pending
    ensures Reconcile(s, present, grace, now, order).users == ReconcileAll(s, order, present, grace, now).users
  {
    hide ReconcileAll;
  }

  lemma RememberedQueues(s: State, t: TS, uses: seq<Use>)
    requires Queues(TS(s, []), t, uses)
    ensures Queues(TS(s, []), TS(Remember(t.s, t.out), t.out), uses)
  {
    hide LastOf;
  }

  // ---- Every level gained is announced ----

  /** The runner at `k`, at `j` afterwards, gained the levels its announcements say. */
  ghost predicate Announces(s: State, t: State, k: Key, j: Key, uses: seq<Use>) {
    k in s.users && j in t.users && t.users[j].level == s.users[k].level + Gained(uses, k)
  }

  lemma StillAnnounces(s: State, t: State, k: Key)
    requires k in s.users && k in t.users && t.users[k].level == s.users[k].level
    ensures Announces(s, t, k, k, [])
  {
  }

  lemma CaughtAnnounces(s: State, t: State, hit: Key, k: Key, j: Key, now: Time)
    requires hit in s.users && k in s.users && j in t.users
    requires t.users[j].level == if k == hit then Advance(s.users[k], now, s.rules).level else s.users[k].level
    ensures Announces(s, t, k, j, [Climb(s, hit, now)])
  {
    hide Advance, LevelMsgs, Gained;
    ClimbedBy(s.users[hit], now, s.rules);
    OneUse([], Climb(s, hit, now));
  }

  lemma AnnouncesThrough(s: State, t: State, u: State, k: Key, a: seq<Use>, b: seq<Use>)
    requires Announces(s, t, k, k, a) && Announces(t, u, k, k, b)
    ensures Announces(s, u, k, k, a + b)
  {
    hide Gained;
    GainedInTurn(a, b, k);
  }

  lemma ClimbedAnnounces(s: State, t: State, k: Key, uses: seq<Use>)
    requires Climbed(s, t, uses) && k in t.users
    ensures Announces(s, t, k, k, uses)
  {
    hide Gained;
  }

  lemma EnterAnnounces(s: State, j: Key, nick: Name, account: Option<Name>, now: Time, k: Key)
    requires k in s.users
    ensures Announces(s, Enter(s, j, nick, account, now), k, k, EnterTrace(s, j, now))
  {
    hide Advance, LevelMsgs, Queue, Stored, Stagger, NewRunner, Climb, Announces;
    var t := Enter(s, j, nick, account, now);
    if j in s.users && s.users[j].connected { CaughtAnnounces(s, t, j, k, k, now); } else { StillAnnounces(s, t, k); }
  }

  lemma JoinAnnounces(s: State, nick: Name, account: Option<Name>, now: Time, order: seq<Key>, k: Key)
    requires Kept(s, {}) && k in s.users
    requires var g := JoinFrom(s, nick, account, order); g.Some? ==> k != JoinKey(nick, account) && k != g.value
    ensures Announces(s, Join(s, nick, account, now, order), k, k, JoinTrace(s, nick, account, now, order))
  {
    hide Enter, Migrate, Migratable, EnterTrace, Climb, Gained;
    var j, g := JoinKey(nick, account), JoinFrom(s, nick, account, order);
    if g.Some? {
      var s1 := Migrate(s, g.value, account.value, nick, now);
      Accounts.MigrateLeavesOthers(s, g.value, account.value, nick, now, k);
      CaughtAnnounces(s, s1, g.value, k, k, now);
      EnterAnnounces(s1, j, nick, account, now, k);
      AnnouncesThrough(s, s1, Enter(s1, j, nick, account, now), k, [Climb(s, g.value, now)], EnterTrace(s1, j, now));
    } else {
      EnterAnnounces(s, j, nick, account, now, k);
    }
  }

  lemma SwitchAnnounces(s: State, hit: Key, now: Time, k: Key)
    requires hit in s.users && k in s.users
    ensures Announces(s, SwitchOff(s, hit, now), k, k, [Climb(s, hit, now)])
  {
    hide Advance, LevelMsgs, Queue, Stored, DisplayName, Climb, Announces;
    CaughtAnnounces(s, SwitchOff(s, hit, now), hit, k, k, now);
  }

  lemma BindAnnounces(s: State, nick: Name, to: Name, now: Time, order: seq<Key>, joinOrder: seq<Key>, k: Key)
    requires Inv(s) && k in s.users && !Accounts.Merges(s, OpBind(nick, to, now, order, joinOrder), k)
    ensures Announces(s, Bind(s, nick, to, now, order, joinOrder), k, k, BindTrace(s, nick, to, now, order, joinOrder))
  {
    hide Join, JoinTrace, SwitchOff, Climb, FirstConnected, Gained, JoinFrom;
    if to.fold == "" {
      StillAnnounces(s, s, k);
    } else {
      var old_, s1 := SwitchedFrom(s, nick, to, order), Unbound(s, nick, to, now, order);
      var a := if old_.Some? then [Climb(s, old_.value, now)] else [];
      if old_.Some? {
        SwitchAnnounces(s, old_.value, now, k);
        Operations.SwitchOffKeeps(s, old_.value, now);
      } else {
        StillAnnounces(s, s1, k);
      }
      JoinAnnounces(s1, nick, Some(to), now, joinOrder, k);
      AnnouncesThrough(s, s1, Join(s1, nick, Some(to), now, joinOrder), k, a,
                       JoinTrace(s1, nick, Some(to), now, joinOrder));
    }
  }

  lemma RenameAnnounces(s: State, op: Op, k: Key)
    requires op.OpRename? && k in s.users
    ensures Announces(s, Apply(s, op), k, KeyAfter(s, op, k), OpTrace(s, op))
  {
    hide Apply, Advance, Find, LevelMsgs, Queue, Climb, Moves, Announces, RenameAt;
    RenameHits(s, op);
    var hit, t := Hit(s, op), Apply(s, op);
    if hit.None? {
      StillAnnounces(s, t, k);
    } else {
      RenamedLevel(s, hit.value, op.newNick, op.now, k);
      RenameApplied(s, op);
      CaughtAnnounces(s, t, hit.value, k, KeyAfter(s, op, k), op.now);
    }
  }

  lemma RenameApplied(s: State, op: Op)
    requires op.OpRename? && Hit(s, op).Some?
    ensures Apply(s, op) == RenameAt(s, Hit(s, op).value, op.newNick, op.now)
    ensures Hit(s, op) == Find(s.users, None, op.nick, op.order) && s.users[Hit(s, op).value].connected
  {
    hide RenameAt, Find;
  }

  lemma RenamedLevel(s: State, hit: Key, newNick: Name, now: Time, k: Key)
    requires hit in s.users && k in s.users
    ensures var t := RenameAt(s, hit, newNick, now);
            var j := if k == hit && Moves(s, hit, newNick) then GuestKey(newNick) else k;
            j in t.users
            && t.users[j].level == if k == hit then Advance(s.users[k], now, s.rules).level else s.users[k].level
  {
    hide Advance, LevelMsgs, Queue, Stored, PenaltySeconds, ClampHeat;
  }

  lemma HitAnnounces(s: State, op: Op, k: Key)
    requires Commands(op) && !op.OpRename? && k in s.users
    ensures Announces(s, Apply(s, op), k, k, OpTrace(s, op))
  {
    hide Apply, Hit, Advance, LevelMsgs, Queue, Climb, Announces;
    if op.OpDisconnect? { LeavingHits(s, op); }
    else if op.OpClaimDeadDrop? { ClaimHits(s, op); }
    else { CommandHits(s, op); }
    var hit := Hit(s, op);
    if hit.Some? { CaughtAnnounces(s, Apply(s, op), hit.value, k, k, op.now); } else { StillAnnounces(s, s, k); }
  }

  lemma RestartAnnounces(s: State, op: Op, k: Key)
    requires op.OpRestart? && Inv(s) && Enumerates(op.order, s.repo.players.Keys) && k in s.users
    ensures Announces(s, Apply(s, op), k, k, [Drop])
  {
    hide Restart, Inv;
    Restarts.RestartKeeps(s, op.now, op.rng, op.order);
    assert Restarts.Reborn(Stored(s.users[k]), Apply(s, op).users[k]);
    OneUse([], Drop);
  }

  /**
   Over one operation other than a merge a runner gains exactly the levels announced for it, under whatever key
   it goes on: every level-up is queued once and nothing else is.
   */
  lemma LevelsAnnounced(s: State, op: Op, k: Key)
    requires Inv(s) && Sensible(s, op) && k in s.users && !Accounts.Merges(s, op, k)
    requires KeyAfter(s, op, k) in Apply(s, op).users
    ensures Announces(s, Apply(s, op), k, KeyAfter(s, op, k), OpTrace(s, op))
  {
    hide Join, Bind, Reconcile, RefreshAll, PauseAll, TickSteps, Restart, JoinTrace, BindTrace, LinkedTrace,
      DroppedTrace, TickTrace, Kept, WorldSaved, Climbed, Queues, DropCode, ReconcileAll, Announces, Gained, Find;
    match op
    case OpJoin(nick, account, now, order) => JoinAnnounces(s, nick, account, now, order, k);
    case OpBind(nick, to, now, order, joinOrder) => BindAnnounces(s, nick, to, now, order, joinOrder, k);
    case OpDisconnectAll(_, _) => PausedAnnounces(s, op, k);
    case OpReconcile(present, grace, now, order) => RosterAnnounces(s, op, k);
    case OpTop(now, order) =>
      RefreshTraced(s, order, now);
      ClimbedAnnounces(s, Apply(s, op), k, OpTrace(s, op));
    case OpTick(_, _, _) => TickAnnounces(s, op, k);
    case OpRestart(_, _, _) => RestartAnnounces(s, op, k);
    case OpForcePirate(now) => StillAnnounces(s, Apply(s, op), k);
    case OpRename(_, _, _, _) => RenameAnnounces(s, op, k);
    case _ => HitAnnounces(s, op, k);
  }

  lemma PausedAnnounces(s: State, op: Op, k: Key)
    requires op.OpDisconnectAll? && Enumerates(op.order, s.users.Keys) && k in Apply(s, op).users
    ensures Announces(s, Apply(s, op), k, k, OpTrace(s, op))
  {
    hide PauseAll, LinkedTrace, Queues, Gained;
    PauseTraced(s, op.order, op.now);
  }

  lemma RosterAnnounces(s: State, op: Op, k: Key)
    requires op.OpReconcile? && Enumerates(op.order, s.users.Keys) && k in Apply(s, op).users
    ensures Announces(s, Apply(s, op), k, k, OpTrace(s, op))
  {
    hide Reconcile, ReconcileAll, DroppedTrace, Queues, Gained;
    RosterTraced(s, op.order, op.present, op.grace, op.now);
    ReconcilePending(s, op.present, op.grace, op.now, op.order);
  }

  lemma TickAnnounces(s: State, op: Op, k: Key)
    requires op.OpTick? && Walks(op.orders, s.users.Keys) && k in Apply(s, op).users
    ensures Announces(s, Apply(s, op), k, k, OpTrace(s, op))
  {
    hide TickSteps, TickTrace, Queues, Gained, LastOf;
    TickTraced(s, op.now, op.orders, op.champion);
  }

  // ---- Whole runs ----

  /** Every use of the queue in the first `n` steps. */
  function History(states: seq<State>, ops: seq<Op>, n: nat): seq<Use>
    requires |states| == |ops| + 1 && n <= |ops|
  {
    if n == 0 then [] else History(states, ops, n - 1) + OpTrace(states[n - 1], ops[n - 1])
  }

  /** Everything the ticks among the first `n` steps handed out to be announced. */
  function Announced(states: seq<State>, ops: seq<Op>, n: nat): seq<Msg>
    requires |states| == |ops| + 1 && n <= |ops|
  {
    if n == 0 then [] else Announced(states, ops, n - 1) + OpOut(states[n - 1], ops[n - 1])
  }

  lemma QueuesBehind(s: State, t: State, before: seq<Msg>, out: seq<Msg>, uses: seq<Use>)
    requires Queues(TS(s, []), TS(t, out), uses)
    ensures Queues(TS(s, before), TS(t, before + out), uses)
  {
    hide Waiting, Delivered, AllUps, Ups;
    UpsAppend(before, out);
    assert Ups([]) == [] by { UpsOnly([]); }
  }

  lemma StepQueues(states: seq<State>, ops: seq<Op>, i: nat, before: seq<Msg>)
    requires Run(states, ops) && i < |ops| && Inv(states[i])
    ensures Queues(TS(states[i], before), TS(states[i + 1], before + OpOut(states[i], ops[i])),
                   OpTrace(states[i], ops[i]))
  {
    hide Apply, OpOut, OpTrace, Queues, Inv;
    assert StepAt(states, ops, i);
    OpQueues(states[i], ops[i]);
    QueuesBehind(states[i], states[i + 1], before, OpOut(states[i], ops[i]), OpTrace(states[i], ops[i]));
  }

  lemma {:induction false} RunQueues(states: seq<State>, ops: seq<Op>, n: nat)
    requires Run(states, ops) && n <= |ops|
    ensures Queues(TS(states[0], []), TS(states[n], Announced(states, ops, n)), History(states, ops, n))
  {
    hide OpOut, OpTrace, Queues, Inv;
    if n == 0 {
      NoQueue(states[0], states[0]);
    } else {
      RunQueues(states, ops, n - 1);
      RunKeeps(states, ops, n - 1);
      StepQueues(states, ops, n - 1, Announced(states, ops, n - 1));
      QueuesThrough(TS(states[0], []), TS(states[n - 1], Announced(states, ops, n - 1)),
                    TS(states[n], Announced(states, ops, n)), History(states, ops, n - 1),
                    OpTrace(states[n - 1], ops[n - 1]));
    }
  }

  lemma {:induction false} BacklogFits(start: seq<Msg>, uses: seq<Use>)
    requires |start| <= MAX_PENDING
    ensures |Waiting(start, uses)| <= MAX_PENDING
  {
    if uses != [] { BacklogFits(start, uses[..|uses| - 1]); }
  }

  /**
   The backlog is always what the uses so far leave of it, never more than fifty, and the level announcements
   the ticks handed out are, in order, exactly those taken from it.
   */
  lemma BacklogOfRun(states: seq<State>, ops: seq<Op>, n: nat)
    requires Run(states, ops) && n <= |ops| && AllUps(states[0].pending) && |states[0].pending| <= MAX_PENDING
    ensures states[n].pending == Waiting(states[0].pending, History(states, ops, n))
            && |states[n].pending| <= 50
    ensures Ups(Announced(states, ops, n)) == Delivered(states[0].pending, History(states, ops, n))
  {
    hide Announced, History, Waiting, Delivered, AllUps, Inv;
    RunQueues(states, ops, n);
    BacklogFits(states[0].pending, History(states, ops, n));
    assert Ups([]) == [] by { UpsOnly([]); }
  }

  /**
   The ticks announce levels in the order they were queued and each at most once; what still waits comes after
   everything announced.
   */
  lemma AnnouncedInOrder(states: seq<State>, ops: seq<Op>, n: nat) returns (at: seq<nat>)
    requires Run(states, ops) && n <= |ops| && AllUps(states[0].pending) && |states[0].pending| <= MAX_PENDING
    ensures Picks(states[0].pending + Queued(History(states, ops, n)),
                  Ups(Announced(states, ops, n)) + states[n].pending, at)
  {
    hide Announced, History, Waiting, Delivered, AllUps, Inv, Picks, Queued;
    BacklogOfRun(states, ops, n);
    at := HandedInOrder(states[0].pending, History(states, ops, n));
  }

  /** Every level queued is announced exactly once or still waits, precisely if no overflow or restart lost any. */
  lemma AnnouncedOnce(states: seq<State>, ops: seq<Op>, n: nat)
    requires Run(states, ops) && n <= |ops| && AllUps(states[0].pending) && |states[0].pending| <= MAX_PENDING
    ensures states[0].pending + Queued(History(states, ops, n)) == Ups(Announced(states, ops, n)) + states[n].pending
       <==> Forgone(states[0].pending, History(states, ops, n)) == 0
  {
    hide Announced, History, Waiting, Delivered, AllUps, Inv, Queued, Forgone;
    BacklogOfRun(states, ops, n);
    NothingLost(states[0].pending, History(states, ops, n));
  }

  /** The levels announced for the runner that starts at `k`, wherever it sits. */
  ghost function LevelsAt(states: seq<State>, ops: seq<Op>, n: nat, k: Key): int
    requires |states| == |ops| + 1 && n <= |ops|
  {
    if n == 0 then 0
    else LevelsAt(states, ops, n - 1, k) + Gained(OpTrace(states[n - 1], ops[n - 1]), Path(states, ops, 0, n - 1, k))
  }

  lemma StepAnnounces(states: seq<State>, ops: seq<Op>, i: nat, k: Key)
    requires Run(states, ops) && i < |ops| && Inv(states[i]) && !Accounts.Merges(states[i], ops[i], k)
    requires k in states[i].users && KeyAfter(states[i], ops[i], k) in states[i + 1].users
    ensures Announces(states[i], states[i + 1], k, KeyAfter(states[i], ops[i], k), OpTrace(states[i], ops[i]))
  {
    hide Apply, OpTrace, Inv, Announces, Accounts.Merges;
    assert StepAt(states, ops, i);
    LevelsAnnounced(states[i], ops[i], k);
  }

  /** Over a whole run, renames included, a runner's level is the one it had and the levels announced for it. */
  lemma {:induction false} LevelsOfRun(states: seq<State>, ops: seq<Op>, n: nat, k: Key)
    requires Run(states, ops) && n <= |ops| && Accounts.Follows(states, ops, n, k)
    ensures k in states[0].users
    ensures Accounts.At(states, ops, n, k).level == states[0].users[k].level + LevelsAt(states, ops, n, k)
  {
    hide OpTrace, Inv, Run, KeyAfter, Gained, Accounts.Merges, Accounts.Follows;
    RunSize(states, ops);
    if n == 0 {
      FollowsFirst(states, ops, k);
    } else {
      Accounts.FollowsPrefix(states, ops, n, k);
      LevelsOfRun(states, ops, n - 1, k);
      RunKeeps(states, ops, n - 1);
      StepAnnounces(states, ops, n - 1, Path(states, ops, 0, n - 1, k));
    }
  }

  lemma RunSize(states: seq<State>, ops: seq<Op>)
    requires Run(states, ops)
    ensures |states| == |ops| + 1
  {
  }

  lemma FollowsFirst(states: seq<State>, ops: seq<Op>, k: Key)
    requires |states| == |ops| + 1 && Accounts.Follows(states, ops, 0, k)
    ensures k in states[0].users
  {
    assert Path(states, ops, 0, 0, k) == k;
  }
}
