/** Whole runs: any sequence of public operations and restarts from an empty store. */
module Runs {
  import opened Grid
  import opened StoreRows
  import opened Machine
  import opened Invariants
  import Operations
  import Ticks
  import Restarts

  datatype Op =
    | OpJoin(nick: Name, account: Option<Name>, now: Time, order: seq<Key>)
    | OpBind(nick: Name, to: Name, now: Time, order: seq<Key>, joinOrder: seq<Key>)
    | OpSetAlias(identity: Option<Key>, nick: Name, alias: Option<Name>, now: Time, order: seq<Key>)
    | OpSetStance(identity: Option<Key>, nick: Name, stance: Stance, now: Time, order: seq<Key>)
    | OpSetFaction(identity: Option<Key>, nick: Name, faction: Faction, now: Time, order: seq<Key>)
    | OpActivity(identity: Option<Key>, nick: Name, channel: Name, kind: Kind, length: int, now: Time, order: seq<Key>)
    | OpStatus(identity: Option<Key>, nick: Name, now: Time, order: seq<Key>)
    | OpDisconnect(nick: Name, kind: Kind, now: Time, order: seq<Key>)
    | OpDisconnectAll(now: Time, order: seq<Key>)
    | OpReconcile(present: set<Name>, grace: int, now: Time, order: seq<Key>)
    | OpRename(nick: Name, newNick: Name, now: Time, order: seq<Key>)
    | OpTop(now: Time, order: seq<Key>)
    | OpClaimDeadDrop(identity: Option<Key>, nick: Name, channel: Name, text: string, now: Time, order: seq<Key>)
    | OpForcePirate(now: Time)
    | OpTick(now: Time, orders: Orders, champion: Faction)
    | OpRestart(now: Time, rng: Rng, order: seq<Key>)

  function Apply(s: State, op: Op): State {
    match op
    case OpJoin(nick, account, now, order) => Join(s, nick, account, now, order)
    case OpBind(nick, to, now, order, joinOrder) => Bind(s, nick, to, now, order, joinOrder)
    case OpSetAlias(identity, nick, alias, now, order) => SetAlias(s, identity, nick, alias, now, order).0
    case OpSetStance(identity, nick, stance, now, order) => SetStance(s, identity, nick, stance, now, order).0
    case OpSetFaction(identity, nick, faction, now, order) => SetFaction(s, identity, nick, faction, now, order).0
    case OpActivity(identity, nick, channel, kind, length, now, order) =>
      Activity(s, identity, nick, channel, kind, length, now, order)
    case OpStatus(identity, nick, now, order) => Status(s, identity, nick, now, order)
    case OpDisconnect(nick, kind, now, order) => Disconnect(s, nick, kind, now, order)
    case OpDisconnectAll(now, order) => DisconnectAll(s, now, order)
    case OpReconcile(present, grace, now, order) => Reconcile(s, present, grace, now, order)
    case OpRename(nick, newNick, now, order) => Rename(s, nick, newNick, now, order)
    case OpTop(now, order) => RefreshAll(s, order, now)
    case OpClaimDeadDrop(identity, nick, channel, text, now, order) =>
      ClaimDeadDrop(s, identity, nick, channel, text, now, order)
    case OpForcePirate(now) => ForcePirate(s, now)
    case OpTick(now, orders, champion) => Tick(s, now, orders, champion)
    case OpRestart(now, rng, order) => Restart(s.rules, s.repo, now, rng, order)
  }

  /** The operation walks maps over all their keys, and the clock reads at least a second past the epoch. */
  ghost predicate Sensible(s: State, op: Op) {
    op.now >= SECOND && match op
    case OpBind(_, _, _, order, joinOrder) => Enumerates(order, s.users.Keys) && Enumerates(joinOrder, s.users.Keys)
    case OpForcePirate(_) => true
    case OpTick(_, orders, _) => Walks(orders, s.users.Keys)
    case OpRestart(_, _, order) => Enumerates(order, s.repo.players.Keys)
    case _ => Enumerates(op.order, s.users.Keys)
  }

  ghost predicate StepAt(states: seq<State>, ops: seq<Op>, i: nat)
    requires |states| == |ops| + 1 && i < |ops|
  {
    Sensible(states[i], ops[i]) && states[i + 1] == Apply(states[i], ops[i])
  }

  /** The states a run of operations goes through, from a state the invariant holds of. */
  ghost predicate Run(states: seq<State>, ops: seq<Op>) {
    |states| == |ops| + 1 && Inv(states[0]) && forall i :: 0 <= i < |ops| ==> StepAt(states, ops, i)
  }

  ghost predicate InOrder(ops: seq<Op>) {
    forall i, j :: 0 <= i < j < |ops| ==> ops[i].now <= ops[j].now
  }

  lemma OpKeeps(s: State, op: Op)
    requires Inv(s) && Sensible(s, op)
    ensures Inv(Apply(s, op))
  {
    match op
    case OpJoin(nick, account, now, order) => Operations.JoinKeeps(s, nick, account, now, order);
    case OpBind(nick, to, now, order, joinOrder) => Operations.BindKeeps(s, nick, to, now, order, joinOrder);
    case OpSetAlias(identity, nick, alias, now, order) =>
      Operations.SetAliasKeeps(s, identity, nick, alias, now, order);
    case OpSetStance(identity, nick, stance, now, order) =>
      Operations.SetStanceKeeps(s, identity, nick, stance, now, order);
    case OpSetFaction(identity, nick, faction, now, order) =>
      Operations.SetFactionKeeps(s, identity, nick, faction, now, order);
    case OpActivity(identity, nick, channel, kind, length, now, order) =>
      Operations.ActivityKeeps(s, identity, nick, channel, kind, length, now, order);
    case OpStatus(identity, nick, now, order) => Operations.StatusKeeps(s, identity, nick, now, order);
    case OpDisconnect(nick, kind, now, order) => Operations.DisconnectKeeps(s, nick, kind, now, order);
    case OpDisconnectAll(now, order) => Operations.DisconnectAllKeeps(s, now, order);
    case OpReconcile(present, grace, now, order) => Operations.ReconcileKeeps(s, present, grace, now, order);
    case OpRename(nick, newNick, now, order) => Operations.RenameKeeps(s, nick, newNick, now, order);
    case OpTop(now, order) => Operations.RefreshAllKeeps(s, order, now);
    case OpClaimDeadDrop(identity, nick, channel, text, now, order) =>
      Operations.ClaimDeadDropKeeps(s, identity, nick, channel, text, now, order);
    case OpForcePirate(now) => Operations.ForcePirateKeeps(s, now);
    case OpTick(now, orders, champion) => Ticks.TickKeeps(s, now, orders, champion);
    case OpRestart(now, rng, order) => Restarts.RestartKeeps(s, now, rng, order);
  }

  lemma StepKeeps(states: seq<State>, ops: seq<Op>, i: nat)
    requires Run(states, ops) && i < |ops| && Inv(states[i])
    ensures Inv(states[i + 1])
  {
    assert StepAt(states, ops, i);
    OpKeeps(states[i], ops[i]);
  }

  lemma {:induction false} RunKeeps(states: seq<State>, ops: seq<Op>, n: nat)
    requires Run(states, ops) && n <= |ops|
    ensures Inv(states[n])
  {
    if n > 0 {
      RunKeeps(states, ops, n - 1);
      StepKeeps(states, ops, n - 1);
    }
  }

  // ---- From an empty store ----

  const EMPTY_WORLD: World := World(0, 0, 0, 0, 0, [], None, None, None)

  /** The engine started on a store with nothing in it. */
  function Boot(rules: Tuning, now: Time, rng: Rng): State {
    Restart(rules, Repo(map[], map[], EMPTY_WORLD), now, rng, [])
  }

  lemma BootKeeps(rules: Tuning, now: Time, rng: Rng)
    ensures Inv(Boot(rules, now, rng)) && Boot(rules, now, rng).users == map[]
  {
  }

  /** A run since the store was empty. */
  ghost predicate FromEmpty(states: seq<State>, ops: seq<Op>, rules: Tuning, now: Time, rng: Rng) {
    Run(states, ops) && states[0] == Boot(rules, now, rng)
  }

  /** Only one of each artifact exists, and a held one is registered and eight levels from burning out at most. */
  lemma OneOfEachArtifact(states: seq<State>, ops: seq<Op>, n: nat, slot: Slot)
    requires Run(states, ops) && n <= |ops|
    ensures var s := states[n];
            && (forall i, j :: i in s.users && j in s.users && Holds(s.users[i], slot) && Holds(s.users[j], slot) ==>
                  i == j)
            && (forall k :: k in s.users && Holds(s.users[k], slot) ==>
                  && s.users[k].equipment[slot].name.base == Artifact(slot)
                  && ArtifactName(slot) in s.repo.claimed
                  && s.users[k].equipment[slot].breaksAt <= s.users[k].level + 8)
  {
    RunKeeps(states, ops, n);
    var s := states[n];
    forall k | k in s.users ensures SoundArtifact(s.users[k], slot, s.repo.claimed) {
      assert SoundRunner(k, s.users[k], s.repo.claimed);
    }
  }

  /**
   Memory is a write-through cache of the store, runner by runner and for the fields of the world modelled here.
   Faction-week scores and the bulletin's counts, which are not, wait in memory for the next save of the world.
   */
  lemma StoreMirrorsMemory(states: seq<State>, ops: seq<Op>, n: nat)
    requires Run(states, ops) && n <= |ops|
    ensures var s := states[n];
            && s.repo.players == (map k | k in s.users :: Stored(s.users[k]))
            && s.repo.world == StoredWorld(s.world)
  {
    RunKeeps(states, ops, n);
    var s := states[n];
    forall k ensures k in s.repo.players <==> k in s.users
      ensures k in s.users ==> s.repo.players[k] == Stored(s.users[k])
    {
      Restarts.RowSound(s, k);
    }
  }

  /** Keys name their runners, guests sit under guest keys, and no two runners share an alias. */
  lemma KeysNameRunners(states: seq<State>, ops: seq<Op>, n: nat)
    requires Run(states, ops) && n <= |ops|
    ensures var s := states[n];
            && (forall k :: k in s.users ==> s.users[k].identity == k && (s.users[k].guest <==> k.Guest?))
            && AliasesDistinct(s.users)
  {
    RunKeeps(states, ops, n);
    var s := states[n];
    forall k | k in s.users ensures SoundRunner(k, s.users[k], s.repo.claimed) {
    }
  }
}
