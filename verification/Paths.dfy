/** Under which key a runner goes on: renames and migrations move it, and only pruning forgets it. */
module Paths {
  import opened Grid
  import opened Progression
  import opened StoreRows
  import opened Machine
  import opened Invariants
  import opened Economy
  import opened Runs
  import Frames
  import Operations
  import Restarts
  import Roster
  import Ticks

  /** A key an operation abandons and the key its runner goes on under. */
  datatype Move = Move(origin: Key, target: Key)

  function MoveOf(origin: Option<Key>, target: Key): Option<Move> {
    if origin.Some? then Some(Move(origin.value, target)) else None
  }

  function Moved(m: Option<Move>, k: Key): Key {
    if m.Some? && k == m.value.origin then m.value.target else k
  }

  /** The guest an operation merges into an account, or makes one. */
  function Migration(s: State, op: Op): Option<Move> {
    match op
    case OpJoin(nick, account, now, order) => MoveOf(JoinFrom(s, nick, account, order), JoinKey(nick, account))
    case OpBind(nick, to, now, order, joinOrder) =>
      if to.fold == "" then None
      else MoveOf(JoinFrom(Unbound(s, nick, to, now, order), nick, Some(to), joinOrder), AccountKey(to))
    case _ => None
  }

  /** The guest a rename takes to its new nick's key. */
  function NickMove(s: State, nick: Name, newNick: Name, order: seq<Key>): Option<Move> {
    var hit := Find(s.users, None, nick, order);
    if hit.Some? && s.users[hit.value].connected && Moves(s, hit.value, newNick)
    then MoveOf(hit, GuestKey(newNick)) else None
  }

  function MoveBy(s: State, op: Op): Option<Move> {
    if op.OpRename? then NickMove(s, op.nick, op.newNick, op.order) else Migration(s, op)
  }

  /** The key under which the runner at `k` goes on. */
  function KeyAfter(s: State, op: Op, k: Key): Key { Moved(MoveBy(s, op), k) }

  /** The key at step `n` of the runner that sat at `k` at step `i`. */
  function Path(states: seq<State>, ops: seq<Op>, i: nat, n: nat, k: Key): Key
    requires |states| == |ops| + 1 && i <= n <= |ops|
    decreases n
  {
    if n == i then k else KeyAfter(states[n - 1], ops[n - 1], Path(states, ops, i, n - 1, k))
  }

  /** The runner that sat at `k` at step `i` is known through step `n`. */
  ghost predicate Known(states: seq<State>, ops: seq<Op>, i: nat, n: nat, k: Key)
    requires |states| == |ops| + 1 && i <= n <= |ops|
  {
    forall m :: i <= m <= n ==> Path(states, ops, i, m, k) in states[m].users
  }

  lemma KnownUntil(states: seq<State>, ops: seq<Op>, i: nat, n: nat, k: Key)
    requires |states| == |ops| + 1 && i <= n <= |ops| && Known(states, ops, i, n, k)
    ensures k in states[i].users && Path(states, ops, i, n, k) in states[n].users
    ensures i < n ==> Known(states, ops, i, n - 1, k)
  {
    hide KeyAfter;
    assert Path(states, ops, i, i, k) == k;
  }

  // ---- Nobody is forgotten but by pruning, nobody is overwritten ----

  lemma MigratableIs(s: State, nick: Name, account: Option<Name>, order: seq<Key>)
    requires Kept(s, {}) && JoinFrom(s, nick, account, order).Some?
    ensures var g := JoinFrom(s, nick, account, order).value;
            g.Guest? && g in s.users && s.users[g].guest && JoinKey(nick, account).Acct?
  {
    assert SoundRunner(JoinFrom(s, nick, account, order).value, s.users[JoinFrom(s, nick, account, order).value],
                       s.repo.claimed);
  }

  /** After a join everybody is where its key says, and newcomers sit at the join's own key. */
  lemma JoinKnows(s: State, nick: Name, account: Option<Name>, now: Time, order: seq<Key>)
    requires Kept(s, {})
    ensures var m := MoveOf(JoinFrom(s, nick, account, order), JoinKey(nick, account));
            var t := Join(s, nick, account, now, order);
            && (forall k :: k in s.users ==> Moved(m, k) in t.users)
            && (m.Some? ==> m.value.origin in s.users && m.value.origin !in t.users)
  {
    hide Enter, Migrate;
    var k := JoinKey(nick, account);
    var g := JoinFrom(s, nick, account, order);
    if g.Some? {
      MigratableIs(s, nick, account, order);
      var s1 := Migrate(s, g.value, account.value, nick, now);
      Frames.MigrateLineage(s, g.value, account.value, nick, now);
      Frames.EnterLineage(s1, k, nick, account, now);
    } else {
      Frames.EnterLineage(s, k, nick, account, now);
    }
  }

  lemma JoinStep(s: State, nick: Name, account: Option<Name>, now: Time, order: seq<Key>)
    requires Inv(s)
    ensures var op := OpJoin(nick, account, now, order);
            forall k :: k in s.users ==> KeyAfter(s, op, k) in Apply(s, op).users
  {
    hide Join, JoinFrom;
    JoinKnows(s, nick, account, now, order);
  }

  lemma BindKnows(s: State, nick: Name, to: Name, now: Time, order: seq<Key>, joinOrder: seq<Key>)
    requires Inv(s)
    ensures var op := OpBind(nick, to, now, order, joinOrder);
            forall k :: k in s.users ==> KeyAfter(s, op, k) in Apply(s, op).users
  {
    hide Join, SwitchOff;
    var old_ := SwitchedFrom(s, nick, to, order);
    if to.fold != "" {
      if old_.Some? {
        Frames.SwitchOffLineage(s, old_.value, now);
        Operations.SwitchOffKeeps(s, old_.value, now);
      }
      JoinKnows(Unbound(s, nick, to, now, order), nick, Some(to), now, joinOrder);
    }
  }

  lemma RenameKnows(s: State, nick: Name, newNick: Name, now: Time, order: seq<Key>)
    ensures var op := OpRename(nick, newNick, now, order);
            forall k :: k in s.users ==> KeyAfter(s, op, k) in Apply(s, op).users
  {
    hide Find;
  }

  /** Commands leave the contract and everybody's place alone. */
  ghost predicate Stays(s: State, t: State) {
    t.world.contract == s.world.contract && t.users.Keys == s.users.Keys
  }

  lemma {:induction false} PauseStays(s: State, order: seq<Key>, now: Time)
    ensures Stays(s, PauseAll(s, order, now))
  {
    if order != [] { PauseStays(s, order[..|order| - 1], now); }
  }

  lemma {:induction false} RefreshStays(s: State, order: seq<Key>, now: Time)
    ensures Stays(s, RefreshAll(s, order, now))
  {
    if order != [] { RefreshStays(s, order[..|order| - 1], now); }
  }

  lemma CommandsStay(s: State, op: Op)
    requires op.OpSetAlias? || op.OpSetStance? || op.OpSetFaction? || op.OpActivity? || op.OpStatus?
    ensures Stays(s, Apply(s, op))
  {
    hide Advance, LevelMsgs, Queue, PenaltySeconds;
  }

  lemma OthersStay(s: State, op: Op)
    requires op.OpDisconnectAll? || op.OpTop? || op.OpClaimDeadDrop? || op.OpForcePirate?
    ensures Stays(s, Apply(s, op))
  {
    match op
    case OpDisconnectAll(now, order) => PauseStays(s, order, now);
    case OpTop(now, order) => RefreshStays(s, order, now);
    case OpClaimDeadDrop(_, _, _, _, _, _) =>
    case OpForcePirate(_) =>
  }

  lemma RestartStays(s: State, now: Time, rng: Rng, order: seq<Key>)
    requires Inv(s) && Enumerates(order, s.repo.players.Keys)
    ensures Stays(s, Restart(s.rules, s.repo, now, rng, order))
  {
    Restarts.RestartKeeps(s, now, rng, order);
  }

  /** Leaving and roster checks keep everybody on the books. */
  lemma LeavingStays(s: State, op: Op)
    requires Inv(s) && Sensible(s, op) && (op.OpDisconnect? || op.OpReconcile?)
    ensures Apply(s, op).users.Keys == s.users.Keys
  {
    hide Advance, LevelMsgs, Queue, PenaltySeconds, Find, Reconcile, Stored;
    if op.OpReconcile? {
      Roster.ReconcileExact(s, op.present, op.grace, op.now, op.order, Guest(""));
    }
  }

  lemma RestartStep(s: State, now: Time, rng: Rng, order: seq<Key>)
    requires Inv(s) && Enumerates(order, s.repo.players.Keys)
    ensures Stays(s, Apply(s, OpRestart(now, rng, order)))
  {
    hide Restart;
    RestartStays(s, now, rng, order);
  }

  lemma TickKnows(s: State, now: Time, ord: Orders, champion: Faction, k: Key)
    requires Inv(s) && k in s.users
    ensures var op := OpTick(now, ord, champion);
            KeyAfter(s, op, k) in Apply(s, op).users || Pruned(s.users[k], now, s.rules)
  {
    hide TickSteps;
    Ticks.TickStepsKeep(s, now, ord, champion);
  }

  lemma KeysStayPut(s: State, op: Op, k: Key)
    requires k in s.users && Apply(s, op).users.Keys == s.users.Keys
    requires !op.OpJoin? && !op.OpBind? && !op.OpRename?
    ensures KeyAfter(s, op, k) in Apply(s, op).users
  {
    hide Apply;
  }

  /** Whoever is known before an operation is known afterwards, under its key, unless a tick prunes it. */
  lemma OnlyPruningForgets(s: State, op: Op, k: Key)
    requires Inv(s) && Sensible(s, op) && k in s.users
    ensures KeyAfter(s, op, k) in Apply(s, op).users || (op.OpTick? && Pruned(s.users[k], op.now, s.rules))
  {
    hide Inv, Apply, KeyAfter, SameProfile;
    match op
    case OpJoin(nick, account, now, order) => JoinStep(s, nick, account, now, order);
    case OpBind(nick, to, now, order, joinOrder) => BindKnows(s, nick, to, now, order, joinOrder);
    case OpRename(nick, newNick, now, order) => RenameKnows(s, nick, newNick, now, order);
    case OpTick(now, orders, champion) => TickKnows(s, now, orders, champion, k);
    case OpDisconnect(_, _, _, _) => LeavingStays(s, op); KeysStayPut(s, op, k);
    case OpReconcile(_, _, _, _) => LeavingStays(s, op); KeysStayPut(s, op, k);
    case OpRestart(now, rng, order) => RestartStep(s, now, rng, order); KeysStayPut(s, op, k);
    case OpDisconnectAll(_, _) => OthersStay(s, op); KeysStayPut(s, op, k);
    case OpTop(_, _) => OthersStay(s, op); KeysStayPut(s, op, k);
    case OpClaimDeadDrop(_, _, _, _, _, _) => OthersStay(s, op); KeysStayPut(s, op, k);
    case OpForcePirate(_) => OthersStay(s, op); KeysStayPut(s, op, k);
    case _ => CommandsStay(s, op); KeysStayPut(s, op, k);
  }

  /** Two runners end up under one key only when an operation merges one of them into the other. */
  lemma RunnersStayApart(s: State, op: Op, a: Key, b: Key)
    requires Inv(s) && Sensible(s, op) && a in s.users && b in s.users && a != b
    requires KeyAfter(s, op, a) == KeyAfter(s, op, b)
    ensures Migration(s, op) == Some(Move(a, b)) || Migration(s, op) == Some(Move(b, a))
  {
  }
}
