/** The outcome of a contract over a whole run. */
module Contracts {
  import opened Grid
  import opened Progression
  import opened StoreRows
  import opened Machine
  import opened Invariants
  import opened Operations
  import opened Ticks
  import opened Runs
  import opened Windows
  import opened Paths
  import Roster

  /** The operation takes the runner off the Grid by its own doing: PART, QUIT, KICK, roster drop, account switch. */
  predicate Drops(s: State, op: Op, k: Key) {
    match op
    case OpDisconnect(nick, kind, now, order) =>
      kind != Netsplit && Find(s.users, None, nick, order) == Some(k) && k in s.users && s.users[k].connected
    case OpBind(nick, to, now, order, joinOrder) =>
      to.fold != "" && SwitchedFrom(s, nick, to, order) == Some(k)
    case OpReconcile(present, grace, now, order) => Roster.Expired(s, k, present, grace, now)
    case _ => false
  }

  /** The operation drops a participant of the running contract. */
  ghost predicate Blames(s: State, op: Op) {
    s.world.contract.Some? && exists k :: k in s.world.contract.value.participants && Drops(s, op, k)
  }

  /** The same contract later on: the deadline stands, and every seat is its runner's, wherever that moved. */
  ghost predicate SameContract(before: Contract, after: Contract, m: Option<Move>) {
    && after.endsAt == before.endsAt && |after.participants| == |before.participants|
    && forall j :: 0 <= j < |before.participants| ==> after.participants[j] == Moved(m, before.participants[j])
  }

  /** Participants are runners the engine knows. */
  ghost predicate Resolvable(s: State) {
    s.world.contract.Some? ==> forall k :: k in s.world.contract.value.participants ==> k in s.users
  }

  /** What one operation does to a contract that no tick resolves. */
  ghost predicate ContractStep(s: State, op: Op, t: State) {
    s.world.contract.Some? ==>
      && t.world.contract.Some? && SameContract(s.world.contract.value, t.world.contract.value, MoveBy(s, op))
      && (t.world.contract.value.failed <==> s.world.contract.value.failed || Blames(s, op))
      && (Resolvable(s) && !op.OpTick? ==> Resolvable(t))
  }

  // ---- Who is still there, and under which key ----

  lemma RekeyStep(s: State, t: State, old_: Key, new_: Key)
    requires t.world.contract == Rekey(s.world.contract, old_, new_)
    requires forall k :: k in s.users && k != old_ ==> k in t.users
    requires new_ in t.users
    ensures s.world.contract.Some? ==>
              && t.world.contract.Some?
              && SameContract(s.world.contract.value, t.world.contract.value, Some(Move(old_, new_)))
              && t.world.contract.value.failed == s.world.contract.value.failed
              && (Resolvable(s) ==> Resolvable(t))
  {
    if s.world.contract.Some? && old_ != new_ && Resolvable(s) {
      var before, after := s.world.contract.value.participants, t.world.contract.value.participants;
      forall k | k in after ensures k in t.users {
        var i :| 0 <= i < |after| && after[i] == k;
        assert before[i] in before;
      }
    }
  }

  lemma EnterKeys(s: State, k: Key, nick: Name, account: Option<Name>, now: Time)
    ensures var t := Enter(s, k, nick, account, now);
            t.users.Keys == s.users.Keys + {k} && t.world == s.world
  {
  }

  lemma JoinContract(s: State, nick: Name, account: Option<Name>, now: Time, order: seq<Key>)
    requires Kept(s, {})
    ensures var t := Join(s, nick, account, now, order);
            var m := MoveOf(JoinFrom(s, nick, account, order), JoinKey(nick, account));
            s.world.contract.Some? ==>
              && t.world.contract.Some? && SameContract(s.world.contract.value, t.world.contract.value, m)
              && t.world.contract.value.failed == s.world.contract.value.failed
              && (Resolvable(s) ==> Resolvable(t))
  {
    var k := JoinKey(nick, account);
    var g := JoinFrom(s, nick, account, order);
    if g.Some? {
      var s1 := Migrate(s, g.value, account.value, nick, now);
      MigrateShape(s, g.value, account.value, nick, now);
      EnterKeys(s1, k, nick, account, now);
      RekeyStep(s, Join(s, nick, account, now, order), g.value, k);
    } else {
      EnterKeys(s, k, nick, account, now);
    }
  }

  lemma MarkStep(s: State, t: State, k: Key)
    requires k in s.users && s.users.Keys <= t.users.Keys
    requires t.world.contract == MarkFailed(s.world.contract, k, DisplayName(s.users[k]))
          || exists name :: t.world.contract == MarkFailed(s.world.contract, k, name)
    ensures s.world.contract.Some? ==>
              && t.world.contract.Some? && t.world.contract.value.participants == s.world.contract.value.participants
              && t.world.contract.value.endsAt == s.world.contract.value.endsAt
              && (t.world.contract.value.failed <==>
                    s.world.contract.value.failed || k in s.world.contract.value.participants)
              && (Resolvable(s) ==> Resolvable(t))
  {
  }

  lemma SwitchOffContract(s: State, k: Key, now: Time)
    requires k in s.users
    ensures var t := SwitchOff(s, k, now);
            && t.users.Keys == s.users.Keys
            && exists name :: t.world.contract == MarkFailed(s.world.contract, k, name)
  {
  }

  lemma BindContract(s: State, nick: Name, account: Name, now: Time, order: seq<Key>, joinOrder: seq<Key>)
    requires Inv(s)
    ensures ContractStep(s, OpBind(nick, account, now, order, joinOrder), Bind(s, nick, account, now, order, joinOrder))
  {
    var old_ := SwitchedFrom(s, nick, account, order);
    if account.fold != "" {
      if old_.Some? {
        var s1 := SwitchOff(s, old_.value, now);
        SwitchOffKeeps(s, old_.value, now);
        SwitchOffContract(s, old_.value, now);
        MarkStep(s, s1, old_.value);
        JoinContract(s1, nick, Some(account), now, joinOrder);
      } else {
        JoinContract(s, nick, Some(account), now, joinOrder);
      }
    }
  }

  lemma DisconnectContract(s: State, nick: Name, kind: Kind, now: Time, order: seq<Key>)
    ensures ContractStep(s, OpDisconnect(nick, kind, now, order), Disconnect(s, nick, kind, now, order))
  {
    hide Advance, LevelMsgs, Queue, Stored, PenaltySeconds, ClampHeat, Find;
    var hit := Find(s.users, None, nick, order);
    if hit.Some? && s.users[hit.value].connected && kind != Netsplit {
      var t := DisconnectAt(s, hit.value, kind, now);
      assert exists name :: t.world.contract == MarkFailed(s.world.contract, hit.value, name);
      MarkStep(s, t, hit.value);
    }
  }

  lemma RenameContract(s: State, oldNick: Name, newNick: Name, now: Time, order: seq<Key>)
    ensures ContractStep(s, OpRename(oldNick, newNick, now, order), Rename(s, oldNick, newNick, now, order))
  {
    var hit := Find(s.users, None, oldNick, order);
    if hit.Some? && s.users[hit.value].connected && Moves(s, hit.value, newNick) {
      RekeyStep(s, RenameAt(s, hit.value, newNick, now), hit.value, GuestKey(newNick));
    }
  }

  // ---- Roster checks ----

  /** A participant among the given runners has been missing for the whole grace period. */
  ghost predicate LosesOneOf(s: State, order: seq<Key>, present: set<Name>, grace: int, now: Time)
    requires s.world.contract.Some?
  {
    exists k :: k in order && k in s.world.contract.value.participants && Roster.Expired(s, k, present, grace, now)
  }

  lemma {:induction false} ReconcileContract(s: State, order: seq<Key>, present: set<Name>, grace: int, now: Time)
    requires s.world.contract.Some?
    requires forall i, j :: 0 <= i < j < |order| ==> order[i] != order[j]
    requires forall k :: k in order ==> k in s.users
    ensures var t := ReconcileAll(s, order, present, grace, now);
            && t.world.contract.Some? && t.world.contract.value.participants == s.world.contract.value.participants
            && t.world.contract.value.endsAt == s.world.contract.value.endsAt
            && (t.world.contract.value.failed <==>
                  (s.world.contract.value.failed || LosesOneOf(s, order, present, grace, now)))
  {
    if order != [] {
      var rest, k := order[..|order| - 1], order[|order| - 1];
      assert order == rest + [k] && k !in rest;
      ReconcileContract(s, rest, present, grace, now);
      Roster.ReconcileAllChecks(s, rest, present, grace, now);
      var s1 := ReconcileAll(s, rest, present, grace, now);
      assert Roster.Since(s1.missing, k) == Roster.Since(s.missing, k);
      assert Roster.Expired(s1, k, present, grace, now) == Roster.Expired(s, k, present, grace, now);
    }
  }

  lemma RosterContract(s: State, present: set<Name>, grace: int, now: Time, order: seq<Key>)
    requires Inv(s) && Enumerates(order, s.users.Keys)
    ensures ContractStep(s, OpReconcile(present, grace, now, order), Reconcile(s, present, grace, now, order))
  {
    hide Advance;
    Roster.ReconcileExact(s, present, grace, now, order, Guest(""));
    if s.world.contract.Some? {
      ReconcileContract(s, order, present, grace, now);
    }
  }

  // ---- Every operation ----

  lemma QuietContract(s: State, op: Op, t: State)
    requires t.world.contract == s.world.contract && s.users.Keys <= t.users.Keys
    requires MoveBy(s, op).None? && forall k :: !Drops(s, op, k)
    ensures ContractStep(s, op, t)
  {
  }

  lemma TickContract(s: State, now: Time, ord: Orders, champion: Faction)
    requires Inv(s) && !ContractDue(s.world, now)
    ensures ContractStep(s, OpTick(now, ord, champion), Tick(s, now, ord, champion))
  {
    TickWorld(s, now, ord, champion);
  }

  lemma OpContract(s: State, op: Op)
    requires Inv(s) && Sensible(s, op) && (op.OpTick? ==> !ContractDue(s.world, op.now))
    ensures ContractStep(s, op, Apply(s, op))
  {
    hide Join, Bind, Disconnect, Reconcile, Rename, RefreshAll, Tick, Restart;
    match op
    case OpJoin(nick, account, now, order) => JoinContract(s, nick, account, now, order);
    case OpBind(nick, to, now, order, joinOrder) => BindContract(s, nick, to, now, order, joinOrder);
    case OpDisconnect(nick, kind, now, order) => DisconnectContract(s, nick, kind, now, order);
    case OpReconcile(present, grace, now, order) => RosterContract(s, present, grace, now, order);
    case OpRename(nick, newNick, now, order) => RenameContract(s, nick, newNick, now, order);
    case OpTick(now, orders, champion) => TickContract(s, now, orders, champion);
    case OpRestart(now, rng, order) => RestartStep(s, now, rng, order); QuietContract(s, op, Apply(s, op));
    case OpDisconnectAll(_, _) => OthersStay(s, op); QuietContract(s, op, Apply(s, op));
    case OpTop(_, _) => OthersStay(s, op); QuietContract(s, op, Apply(s, op));
    case OpClaimDeadDrop(_, _, _, _, _, _) => OthersStay(s, op); QuietContract(s, op, Apply(s, op));
    case OpForcePirate(_) => OthersStay(s, op); QuietContract(s, op, Apply(s, op));
    case _ => CommandsStay(s, op); QuietContract(s, op, Apply(s, op));
  }

  lemma StepContract(states: seq<State>, ops: seq<Op>, i: nat)
    requires Run(states, ops) && i < |ops| && Inv(states[i])
    requires ops[i].OpTick? ==> !ContractDue(states[i].world, ops[i].now)
    ensures ContractStep(states[i], ops[i], states[i + 1])
  {
    assert StepAt(states, ops, i);
    OpContract(states[i], ops[i]);
  }

  // ---- From recruitment to resolution ----

  /** No tick among the given steps finds the contract due. */
  ghost predicate Running(states: seq<State>, ops: seq<Op>, i: nat, n: nat)
    requires |states| == |ops| + 1 && n <= |ops|
  {
    forall m :: i <= m < n && ops[m].OpTick? ==> !ContractDue(states[m].world, ops[m].now)
  }

  /** Where the runners recruited by step `i` are at step `n`, seat by seat. */
  ghost function Team(states: seq<State>, ops: seq<Op>, i: nat, n: nat): (team: seq<Key>)
    requires |states| == |ops| + 1 && i <= n <= |ops| && states[i].world.contract.Some?
  {
    var recruits := states[i].world.contract.value.participants;
    seq(|recruits|, j requires 0 <= j < |recruits| => Path(states, ops, i, n, recruits[j]))
  }

  /** A recruit of step `i`, followed under its keys, dropped between the two steps. */
  ghost predicate Dropped(states: seq<State>, ops: seq<Op>, i: nat, n: nat)
    requires |states| == |ops| + 1 && i <= n <= |ops| && states[i].world.contract.Some?
  {
    exists m, k :: i <= m < n && k in Team(states, ops, i, m) && Drops(states[m], ops[m], k)
  }

  lemma TeamStep(states: seq<State>, ops: seq<Op>, i: nat, n: nat)
    requires |states| == |ops| + 1 && i < n <= |ops| && states[i].world.contract.Some?
    requires states[n - 1].world.contract.Some? && states[n].world.contract.Some?
    requires states[n - 1].world.contract.value.participants == Team(states, ops, i, n - 1)
    requires SameContract(states[n - 1].world.contract.value, states[n].world.contract.value,
                          MoveBy(states[n - 1], ops[n - 1]))
    ensures states[n].world.contract.value.participants == Team(states, ops, i, n)
  {
    hide MoveBy;
  }

  /**
   While it runs, a contract keeps its deadline, every seat stays with the runner recruited for it, and it is
   failed exactly when one of those runners dropped.
   */
  lemma {:induction false} FailedIffDropped(states: seq<State>, ops: seq<Op>, i: nat, n: nat)
    requires Run(states, ops) && i <= n <= |ops| && Running(states, ops, i, n)
    requires states[i].world.contract.Some? && !states[i].world.contract.value.failed
    ensures states[n].world.contract.Some?
    ensures states[n].world.contract.value.endsAt == states[i].world.contract.value.endsAt
    ensures states[n].world.contract.value.participants == Team(states, ops, i, n)
    ensures states[n].world.contract.value.failed <==> Dropped(states, ops, i, n)
    decreases n
  {
    hide Drops, MoveBy, Inv, Resolvable;
    if i < n {
      FailedIffDropped(states, ops, i, n - 1);
      RunKeeps(states, ops, n - 1);
      StepContract(states, ops, n - 1);
      TeamStep(states, ops, i, n);
      assert Blames(states[n - 1], ops[n - 1]) ==> Dropped(states, ops, i, n);
    }
  }

  /**
   A contract runs until the first tick that comes at or after its deadline or finds it failed. That
   tick announces success exactly when no recruit dropped since recruitment and all of them are linked.
   */
  lemma ContractOutcome(states: seq<State>, ops: seq<Op>, i: nat, n: nat)
    requires Run(states, ops) && i <= n < |ops| && Running(states, ops, i, n) && ops[n].OpTick?
    requires states[i].world.contract.Some? && !states[i].world.contract.value.failed
    ensures var s, c := states[n], states[i].world.contract.value;
            var due := ContractDue(s.world, ops[n].now);
            && (due <==> ops[n].now >= c.endsAt || Dropped(states, ops, i, n))
            && s.world.contract.Some?
            && (due ==> ContractNews(s) in TickSteps(s, ops[n].now, ops[n].orders, ops[n].champion).out)
            && (ContractNews(s) == ContractComplete <==>
                  !Dropped(states, ops, i, n)
                  && forall k :: k in Team(states, ops, i, n) ==> k in s.users && s.users[k].connected)
  {
    hide Apply, TickSteps, Dropped, Team;
    FailedIffDropped(states, ops, i, n);
    RunKeeps(states, ops, n);
    TickWorld(states[n], ops[n].now, ops[n].orders, ops[n].champion);
  }

  // ---- Participants stay resolvable ----

  /** A tick loses a participant only by pruning an offline guest. */
  lemma TickParticipants(s: State, now: Time, ord: Orders, champion: Faction, k: Key)
    requires Inv(s) && Resolvable(s)
    requires Tick(s, now, ord, champion).world.contract.Some?
    requires k in Tick(s, now, ord, champion).world.contract.value.participants
    ensures k in Tick(s, now, ord, champion).users || (k in s.users && Pruned(s.users[k], now, s.rules))
  {
    TickWorld(s, now, ord, champion);
    TickStepsKeep(s, now, ord, champion);
    WorldStepsKeep(TS(s.(pending := []), []), now, ord);
    var e := Events(s, now, ord).s;
    if s.world.contract.None? || ContractDue(s.world, now) {
      assert k in e.users && e.users[k].connected;
    }
  }

  /** Every other operation keeps every participant of a running contract on the books. */
  lemma OthersKeepParticipants(states: seq<State>, ops: seq<Op>, i: nat)
    requires Run(states, ops) && i < |ops| && Inv(states[i]) && !ops[i].OpTick?
    requires Resolvable(states[i]) && states[i].world.contract.Some?
    ensures Resolvable(states[i + 1]) && states[i + 1].world.contract.Some?
  {
    StepContract(states, ops, i);
  }

  // ---- Who is named ----

  /**
   Whoever leaves a running contract by its own doing fails it, and the next tick that resolves it says so by the
   name the runner goes by; leaving a contract that has failed already changes nobody's mind.
   */
  lemma DropperNamed(s: State, nick: Name, kind: Kind, now: Time, order: seq<Key>, out: seq<Msg>, later: Time)
    requires var hit := Find(s.users, None, nick, order); hit.Some? && s.users[hit.value].connected
    requires kind != Netsplit && s.world.contract.Some?
    requires Find(s.users, None, nick, order).value in s.world.contract.value.participants
    ensures var k, u := Find(s.users, None, nick, order).value, Disconnect(s, nick, kind, now, order);
            && u.world.contract.Some? && u.world.contract.value.failed
            && (if s.world.contract.value.failed then u.world.contract == s.world.contract
                else u.world.contract.value.droppedBy == Some(DisplayName(s.users[k])))
            && ResolveContract(TS(u, out), later).out == out + [ContractFailed(u.world.contract.value.droppedBy)]
  {
    hide Find, Advance, LevelMsgs, Queue, Stored, PenaltySeconds, ClampHeat, SettleAll;
    NameStands(s.users[Find(s.users, None, nick, order).value], now, s.rules);
  }

  lemma NameStands(p: Runner, now: Time, r: Tuning)
    ensures DisplayName(Advance(p, now, r)) == DisplayName(p)
  {
    hide LevelLoop;
  }
}
