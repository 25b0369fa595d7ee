/** Whatever is asked of the engine, its records and tables take one step of the state machine. */
module Sessions {
  import opened Grid
  import opened Machine
  import opened Invariants
  import opened Runs
  import opened Players
  import opened Stores
  import opened Engines

  /** The call without the orders in which maps are walked. */
  function Call(op: Op): Op {
    match op
    case OpJoin(nick, account, now, _) => OpJoin(nick, account, now, [])
    case OpBind(nick, to, now, _, _) => OpBind(nick, to, now, [], [])
    case OpSetAlias(identity, nick, alias, now, _) => OpSetAlias(identity, nick, alias, now, [])
    case OpSetStance(identity, nick, stance, now, _) => OpSetStance(identity, nick, stance, now, [])
    case OpSetFaction(identity, nick, faction, now, _) => OpSetFaction(identity, nick, faction, now, [])
    case OpActivity(identity, nick, channel, kind, length, now, _) =>
      OpActivity(identity, nick, channel, kind, length, now, [])
    case OpStatus(identity, nick, now, _) => OpStatus(identity, nick, now, [])
    case OpDisconnect(nick, kind, now, _) => OpDisconnect(nick, kind, now, [])
    case OpDisconnectAll(now, _) => OpDisconnectAll(now, [])
    case OpReconcile(present, grace, now, _) => OpReconcile(present, grace, now, [])
    case OpRename(nick, newNick, now, _) => OpRename(nick, newNick, now, [])
    case OpTop(now, _) => OpTop(now, [])
    case OpClaimDeadDrop(identity, nick, channel, text, now, _) =>
      OpClaimDeadDrop(identity, nick, channel, text, now, [])
    case OpForcePirate(_) => op
    case OpTick(now, _, champion) => OpTick(now, Orders([], [], [], [], []), champion)
    case OpRestart(now, rng, _) => OpRestart(now, rng, [])
  }

  /** One call on a running engine, its maps walked in whatever order they come. */
  method Perform(e: Engine, asked: Op) returns (ghost done: Op)
    requires e.Valid() && !asked.OpRestart?
    modifies e, e.store, e.users.Values
    ensures e.Valid() && fresh(e.users.Values - old(e.users.Values))
    ensures Call(done) == Call(asked) && e.State() == Apply(old(e.State()), done)
    ensures asked.now >= SECOND ==> Sensible(old(e.State()), done)
  {
    hide Join, Bind, SetAlias, SetStance, SetFaction, Activity, Status, Disconnect, DisconnectAll, Reconcile, Rename,
      RefreshAll, ClaimDeadDrop, ForcePirate, Tick, TickSteps, Restart, Player.View, Store.Contents, Enumerates;
    assert e.State().users.Keys == e.users.Keys;
    ghost var order, joinOrder;
    match asked {
    case OpJoin(nick, account, now, _) =>
      order := e.Join(nick, account, now);
      done := OpJoin(nick, account, now, order);
    case OpBind(nick, to, now, _, _) =>
      order, joinOrder := e.Bind(nick, to, now);
      done := OpBind(nick, to, now, order, joinOrder);
    case OpSetAlias(identity, nick, alias, now, _) =>
      var ok;
      ok, order := e.SetAlias(identity, nick, alias, now);
      done := OpSetAlias(identity, nick, alias, now, order);
    case OpSetStance(identity, nick, stance, now, _) =>
      var ok;
      ok, order := e.SetStance(identity, nick, stance, now);
      done := OpSetStance(identity, nick, stance, now, order);
    case OpSetFaction(identity, nick, faction, now, _) =>
      var ok;
      ok, order := e.SetFaction(identity, nick, faction, now);
      done := OpSetFaction(identity, nick, faction, now, order);
    case OpActivity(identity, nick, channel, kind, length, now, _) =>
      order := e.Activity(identity, nick, channel, kind, length, now);
      done := OpActivity(identity, nick, channel, kind, length, now, order);
    case OpStatus(identity, nick, now, _) =>
      var hit;
      hit, order := e.Status(identity, nick, now);
      done := OpStatus(identity, nick, now, order);
    case OpDisconnect(nick, kind, now, _) =>
      order := e.Disconnect(nick, kind, now);
      done := OpDisconnect(nick, kind, now, order);
    case OpDisconnectAll(now, _) =>
      order := e.DisconnectAll(now);
      done := OpDisconnectAll(now, order);
    case OpReconcile(present, grace, now, _) =>
      order := e.Reconcile(present, grace, now);
      done := OpReconcile(present, grace, now, order);
    case OpRename(nick, newNick, now, _) =>
      order := e.Rename(nick, newNick, now);
      done := OpRename(nick, newNick, now, order);
    case OpTop(now, _) =>
      var rows;
      ghost var ranking;
      rows, order, ranking := e.Top(10, now);
      done := OpTop(now, order);
    case OpClaimDeadDrop(identity, nick, channel, text, now, _) =>
      order := e.ClaimDeadDrop(identity, nick, channel, text, now);
      done := OpClaimDeadDrop(identity, nick, channel, text, now, order);
    case OpForcePirate(now) =>
      e.ForcePirate(now);
      done := asked;
    case OpTick(now, _, champion) =>
      var out;
      ghost var orders;
      out, orders := e.Tick(now, champion);
      done := OpTick(now, orders, champion);
    }
  }

  /** A running engine in a state the invariant holds of stays in one, and only ever takes steps of a run. */
  method Serve(e: Engine, asked: Op) returns (ghost done: Op)
    requires e.Valid() && Inv(e.State()) && !asked.OpRestart? && asked.now >= SECOND
    modifies e, e.store, e.users.Values
    ensures e.Valid() && fresh(e.users.Values - old(e.users.Values))
    ensures Call(done) == Call(asked) && Sensible(old(e.State()), done) && e.State() == Apply(old(e.State()), done)
    ensures Inv(e.State())
  {
    hide Apply, Sensible, Call, Inv, Engine.State, Engine.Views, Player.View, Store.Contents;
    done := Perform(e, asked);
    OpKeeps(old(e.State()), done);
  }
}
