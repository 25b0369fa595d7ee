/**
 The engine with its records updated in place: every method is proved to take the state where the
 operation of the same name in `Machine` takes it.
 */
module Engines {
  import opened Grid
  import opened StoreRows
  import opened Players
  import opened Rivals
  import opened Stores
  import Progression
  import Invariants
  import Raids
  import M = Machine

  lemma MigrateIs(s: M.State, s1: M.State, g: Key, account: Name, nick: Name, now: Time, row: Runner,
                  players: map<Key, Runner>)
    requires g in s.users && s1 == M.SaveAt(M.AdvanceAt(s, g, now), g)
    requires MigrateGuest(s1.repo.players, g, AccountKey(account), account, nick) == Some((row, players))
    ensures M.Migrate(s, g, account, nick, now)
         == s1.(users := (s1.users - {g})[AccountKey(account) := row], repo := s1.repo.(players := players),
                world := s1.world.(contract := M.Rekey(s1.world.contract, g, AccountKey(account))))
  {
  }

  /** The drop table, draw by draw. */
  lemma LootIs(s: M.State, k: Key, exclude: Option<ItemName>)
    requires k in s.users
    ensures var s2, missed := M.Skip(M.Skip(s)), Draw(s.rng, 100) >= M.RareLootChance(s.users[k]);
            var hit := if missed then None else M.Unclaimed(s.repo.claimed, exclude, Draw(Rest(s.rng), 5), 0);
            && M.LootSlot(s, k, exclude) == hit
            && M.RareLoot(s, k, exclude) == if missed then M.Skip(s) else if hit.None? then s2
                 else M.FitAt(M.ClaimName(s2, ArtifactName(hit.value), k), k, hit.value)
  {
    hide M.FitAt, M.RareLootChance, M.Unclaimed;
  }

  /** Some order in which a map with these keys may be walked. */
  method WalkKeys(keys: set<Key>) returns (order: seq<Key>)
    ensures Enumerates(order, keys)
  {
    order := [];
    var todo := keys;
    while todo != {}
      invariant todo <= keys
      invariant forall k :: k in order <==> k in keys && k !in todo
      invariant forall i, j :: 0 <= i < j < |order| ==> order[i] != order[j]
      decreases todo
    {
      var k :| k in todo;
      todo := todo - {k};
      order := order + [k];
    }
  }

  /**
   New: tuning out of range falls back, and the process starts with nothing but what was saved. Rows sit under
   their identities.
   */
  method New(given: Rules, store: Store, now: Time, rng: Rng) returns (e: Engine, ghost order: seq<Key>)
    requires given.levelStepSeconds >= 0 && forall k :: k in store.players ==> store.players[k].identity == k
    modifies store
    ensures fresh(e) && e.Valid() && e.store == store && fresh(e.users.Values)
    ensures Enumerates(order, old(store.players.Keys))
    ensures e.State() == M.Restart(Fallbacks(given), old(store.Contents()), now, rng, order)
  {
    hide M.LoadRows, M.Schedule, Engine.State, Engine.Views, Player.View, Fallbacks;
    var keys := WalkKeys(store.players.Keys);
    order := keys;
    e := new Engine(Fallbacks(given), store, rng);
    e.LoadRows(keys, now);
    e.Schedule(now);
  }

  class Engine {
    const rules: Tuning
    const store: Store
    var users: map<Key, Player>
    var world: World
    var pending: seq<Msg>
    var missing: map<Key, Time>
    var rng: Rng

    /** An engine that knows nobody yet. */
    constructor (rules: Tuning, store: Store, rng: Rng)
      ensures Valid() && this.store == store && users == map[]
      ensures State() == M.State(rules, map[], store.Contents(), store.world, [], map[], rng)
    {
      this.rules, this.store, this.rng := rules, store, rng;
      users, world, pending, missing := map[], store.world, [], map[];
    }

    function Views(): map<Key, Runner>
      reads `users, users.Values
    {
      map k | k in users :: users[k].View()
    }

    /** The engine's state as a value. */
    function State(): M.State
      reads this, store, users.Values
    {
      M.State(rules, Views(), store.Contents(), world, pending, missing, rng)
    }

    /** Distinct keys are distinct records, and every key is its record's identity. */
    ghost predicate Valid()
      reads this, users.Values
    {
      && (forall j, k :: j in users && k in users && users[j] == users[k] ==> j == k)
      && (forall k :: k in users ==> users[k].View().identity == k)
    }

    /** Only the record at `k` changed. */
    twostate lemma Viewed(k: Key)
      requires old(Valid()) && users == old(users) && k in users && users[k].View().identity == k
      requires forall j :: j in users && j != k ==> unchanged(users[j])
      ensures Valid() && Views() == old(Views())[k := users[k].View()]
    {
      hide Player.View;
      assert forall j :: j in users && j != k ==> users[j].View() == old(users[j].View());
    }

    /** Nothing but the record at `k` changed. */
    twostate lemma Put(k: Key)
      requires old(Valid()) && users == old(users) && k in users && users[k].View().identity == k
      requires forall j :: j in users && j != k ==> unchanged(users[j])
      requires unchanged(`world) && unchanged(`pending) && unchanged(`missing) && unchanged(`rng) && unchanged(store)
      ensures Valid() && State() == M.SetAt(old(State()), k, users[k].View())
    {
      hide Player.View, Views, Valid;
      Viewed(k);
    }

    /** Nothing but the record at `k` and the random source changed. */
    twostate lemma PutDrawn(k: Key)
      requires old(Valid()) && users == old(users) && k in users && users[k].View().identity == k
      requires forall j :: j in users && j != k ==> unchanged(users[j])
      requires unchanged(`world) && unchanged(`pending) && unchanged(`missing) && unchanged(store)
      ensures Valid() && State() == M.SetAt(old(State()), k, users[k].View()).(rng := rng)
    {
      hide Player.View, Views, Valid;
      Viewed(k);
    }

    // ---- Random draws, announcements, saving ----

    method Intn(n: nat) returns (d: nat)
      requires n > 0
      modifies `rng
      ensures d == Draw(old(rng), n) && rng == Rest(old(rng))
    {
      d := Draw(rng, n);
      rng := Rest(rng);
    }

    /** queueLocked: the backlog keeps the newest fifty. */
    method QueueAll(messages: seq<Msg>)
      modifies `pending
      ensures pending == M.Queue(old(pending), messages)
    {
      pending := pending + messages;
      if |pending| > M.MAX_PENDING {
        pending := pending[|pending| - M.MAX_PENDING..];
      }
    }

    /** rememberLocked: the world keeps the newest twenty. */
    method Remember(messages: seq<Msg>)
      modifies `world, store`world
      ensures State() == M.Remember(old(State()), messages)
    {
      if messages == [] { return; }
      var recent := world.recent + messages;
      if |recent| > M.MAX_RECENT {
        recent := recent[|recent| - M.MAX_RECENT..];
      }
      world := world.(recent := recent);
      store.SaveWorldState(world);
    }

    method SaveWorld()
      modifies store`world
      ensures State() == M.SaveWorld(old(State()))
    {
      store.SaveWorldState(world);
    }

    method SaveAt(k: Key)
      requires Valid() && k in users
      modifies store`players
      ensures State() == M.SaveAt(old(State()), k) && k in store.players
    {
      store.Save(users[k]);
    }

    /** advanceLocked */
    method AdvanceAt(k: Key, now: Time)
      requires Valid() && k in users
      modifies `pending, users[k]
      ensures Valid() && users == old(users)
      ensures State() == M.AdvanceAt(old(State()), k, now)
    {
      hide Progression.Advance, Progression.LevelMsgs, M.Queue, Player.View;
      var messages := users[k].Advance(now, rules);
      Invariants.AdvanceFrame(old(users[k].View()), now, rules);
      Put(k);
      QueueAll(messages);
    }

    // ---- Starting up ----

    /** Uniques from before burn-out existed get a normal remaining lifespan. */
    method FixSlots(p: Player)
      modifies `rng, p
      ensures var v := old(p.View());
              var (eq, rest) := M.FixSlots(v.equipment, v.level, old(rng), |SLOTS|);
              p.View() == v.(equipment := eq) && rng == rest
    {
      hide Draw, Rest, Player.View;
      ghost var v := p.View();
      for i := 0 to |SLOTS|
        invariant var (eq, rest) := M.FixSlots(v.equipment, v.level, old(rng), i);
                  p.View() == v.(equipment := eq) && rng == rest
      {
        var item := GearIn(p.View().equipment, SLOTS[i]);
        if item.unique && item.breaksAt == 0 {
          var d := Intn(M.UNIQUE_LIFE_RANGE);
          p.Equip(SLOTS[i], item.(breaksAt := p.View().level + (M.UNIQUE_MIN_LIFE + d)));
        }
      }
    }

    /** A record made of a saved row: offline, with its clocks reset. */
    method Revive(row: Runner, now: Time) returns (p: Player)
      modifies `rng
      ensures fresh(p) && (p.View(), rng) == M.Loaded(row, now, rules, old(rng))
      ensures p.View().identity == row.identity
    {
      hide M.FixSlots, M.OrElse, Player.View;
      p := new Player(row);
      FixSlots(p);
      p.Suspend(now);
      p.Reschedule(M.OrElse(row.nextEncounterAt, now + rules.encounterInterval),
                   M.OrElse(row.nextDistrictAt, now + rules.districtInterval),
                   M.OrElse(row.nextCollisionAt, now + rules.collisionInterval));
    }

    /** One row comes back and is saved as it came. */
    method Load(k: Key, now: Time)
      requires Valid() && k in store.players && store.players[k].identity == k
      modifies `users, `rng, store`players
      ensures Valid() && fresh(users.Values - old(users.Values))
      ensures State() == M.LoadAt(old(State()), k, now)
      ensures store.players.Keys == old(store.players.Keys)
      ensures forall j :: j in store.players && old(store.players[j].identity) == j ==> store.players[j].identity == j
    {
      hide M.Loaded, Player.View;
      var p := Revive(store.players[k], now);
      Insert(k, p);
      SaveAt(k);
    }

    method LoadRows(keys: seq<Key>, now: Time)
      requires Valid() && users == map[] && forall k <- keys :: k in store.players
      requires forall k :: k in store.players ==> store.players[k].identity == k
      modifies `users, `rng, store`players
      ensures Valid() && fresh(users.Values)
      ensures State() == M.LoadRows(old(State()), keys, now)
    {
      hide M.LoadAt, State, Player.View, Store.Contents;
      for i := 0 to |keys|
        invariant Valid() && fresh(users.Values)
        invariant store.players.Keys == old(store.players.Keys)
        invariant forall k :: k in store.players ==> store.players[k].identity == k
        invariant State() == M.LoadRows(old(State()), keys[..i], now)
      {
        Load(keys[i], now);
        assert keys[..i + 1][..i] == keys[..i];
      }
      assert keys[..|keys|] == keys;
    }

    /** The first city event and crash window get a time. */
    method Schedule(now: Time)
      modifies `world, `rng, store`world
      ensures State() == M.Schedule(old(State()), now)
    {
      hide Draw, Rest, Player.View;
      var changed := false;
      if world.nextCityEventAt == 0 {
        world := world.(nextCityEventAt := now + rules.cityEventInterval);
        changed := true;
      }
      if world.nextSwapAt == 0 {
        world := world.(nextSwapAt := M.NextSwap(now, rng));
        rng := Rest(rng);
        changed := true;
      }
      if changed {
        SaveWorld();
      }
    }

    // ---- Finding runners ----

    /** Some order in which the map of runners may be walked. */
    method Walk() returns (order: seq<Key>)
      ensures Enumerates(order, users.Keys)
    {
      order := WalkKeys(users.Keys);
    }

    /** findConnectedLocked */
    method FindConnected(nick: Name) returns (hit: Option<Key>, ghost order: seq<Key>)
      ensures Enumerates(order, users.Keys) && hit == M.FirstConnected(Views(), nick, order)
    {
      var keys := Walk();
      order := keys;
      for i := 0 to |keys|
        invariant M.FirstConnected(Views(), nick, keys) == M.FirstConnected(Views(), nick, keys[i..])
      {
        var p := users[keys[i]];
        if p.connected && EqualFold(p.nick, nick) {
          return Some(keys[i]), order;
        }
        assert keys[i..][1..] == keys[i + 1..];
      }
      hit := None;
    }

    /** findLocked */
    method Find(identity: Option<Key>, nick: Name) returns (hit: Option<Key>, ghost order: seq<Key>)
      ensures Enumerates(order, users.Keys) && hit == M.Find(Views(), identity, nick, order)
    {
      hit, order := FindConnected(nick);
      if identity.Some? && identity.value in users {
        hit := identity;
      } else if hit.None? && identity.None? && GuestKey(nick) in users && users[GuestKey(nick)].guest {
        hit := Some(GuestKey(nick));
      }
    }

    // ---- Contracts ----

    /** markContractFailedLocked */
    method MarkAt(k: Key) returns (changed: bool)
      requires Valid() && k in users
      modifies `world
      ensures State() == M.MarkAt(old(State()), k)
      ensures changed == M.Breaks(old(world).contract, k)
      ensures changed ==> world.contract.Some? && world.contract.value.failed
      ensures !changed ==> world == old(world)
    {
      if world.contract.None? || world.contract.value.failed { return false; }
      var c := world.contract.value;
      for i := 0 to |c.participants|
        invariant k !in c.participants[..i]
        invariant world == old(world)
      {
        if c.participants[i] == k {
          world := world.(contract := Some(c.(failed := true, droppedBy := Some(DisplayName(users[k].View())))));
          return true;
        }
      }
      changed := false;
    }

    /** rekeyContractParticipantLocked */
    method Rekey(old_: Key, new_: Key) returns (changed: bool)
      modifies `world
      ensures State() == old(State()).(world := old(world).(contract := M.Rekey(old(world).contract, old_, new_)))
      ensures changed == M.Rekeys(old(world).contract, old_, new_)
    {
      changed := false;
      if world.contract.None? || old_ == new_ { return; }
      var team := world.contract.value.participants;
      for i := 0 to |team|
        invariant |team| == |world.contract.value.participants|
        invariant forall j :: 0 <= j < |team| ==>
          team[j] == if j < i && world.contract.value.participants[j] == old_
                     then new_ else world.contract.value.participants[j]
        invariant changed <==> old_ in world.contract.value.participants[..i]
      {
        if team[i] == old_ {
          team := team[i := new_];
          changed := true;
        }
      }
      assert team == M.Replace(world.contract.value.participants, old_, new_);
      world := world.(contract := Some(world.contract.value.(participants := team)));
    }

    // ---- Join and Bind ----

    /** A timer that came due while the runner was away fires later in its interval. */
    method Stagger(at: Time, interval: int, now: Time) returns (next: Time)
      requires interval > 0
      modifies `rng
      ensures (next, rng) == M.Stagger(at, interval, now, old(rng))
    {
      next := at;
      if at != 0 && at <= now {
        var d := Intn(interval * 3 / 4 + 1);
        next := now + interval / 4 + d;
      }
    }

    /** staggerTimersLocked */
    method StaggerTimers(p: Player, now: Time)
      modifies `rng, p
      ensures var v := old(p.View());
              var (encounter, rng1) := M.Stagger(v.nextEncounterAt, rules.encounterInterval, now, old(rng));
              var (drift, rng2) := M.Stagger(v.nextDistrictAt, rules.districtInterval, now, rng1);
              var (collision, rng3) := M.Stagger(v.nextCollisionAt, rules.collisionInterval, now, rng2);
              && p.View() == v.(nextEncounterAt := encounter, nextDistrictAt := drift, nextCollisionAt := collision)
              && rng == rng3
    {
      hide M.Stagger;
      var encounter := Stagger(p.nextEncounterAt, rules.encounterInterval, now);
      var drift := Stagger(p.nextDistrictAt, rules.districtInterval, now);
      var collision := Stagger(p.nextCollisionAt, rules.collisionInterval, now);
      p.Reschedule(encounter, drift, collision);
    }

    /** A runner coming back: overdue timers are pushed out, and a stale streak starts over. */
    method Resume(k: Key, now: Time)
      requires Valid() && k in users
      modifies `rng, users[k]
      ensures Valid() && users == old(users)
      ensures State() == M.Resume(old(State()), k, now)
    {
      hide M.Stagger, Player.View;
      var p := users[k];
      var v := p.View();
      StaggerTimers(p, now);
      if v.streakSince == 0 || now - v.lastSeenAt > M.STREAK_GRACE {
        p.SetStreak(now, 0);
      }
      PutDrawn(k);
    }

    /** migratableGuestLocked */
    method Migratable(nick: Name, account: Name) returns (hit: Option<Key>, ghost order: seq<Key>)
      requires Valid()
      ensures Enumerates(order, users.Keys) && hit == M.Migratable(Views(), nick, account, order)
      ensures hit.Some? ==> hit.value in users
    {
      hit, order := FindConnected(nick);
      if hit.Some? {
        if !users[hit.value].guest { hit := None; }
      } else if GuestKey(nick) in users && users[GuestKey(nick)].guest && EqualFold(nick, account) {
        hit := Some(GuestKey(nick));
      }
    }

    /** The record at `g` gives way to another at `k`. */
    method Replace(g: Key, k: Key, p: Player)
      requires Valid() && p !in users.Values && p.View().identity == k
      modifies `users
      ensures Valid() && users == (old(users) - {g})[k := p]
      ensures Views() == (old(Views()) - {g})[k := p.View()]
    {
      hide Player.View;
      users := (users - {g})[k := p];
    }

    method Insert(k: Key, p: Player)
      requires Valid() && p !in users.Values && p.View().identity == k
      modifies `users
      ensures Valid() && users == old(users)[k := p]
      ensures State() == M.SetAt(old(State()), k, p.View())
    {
      hide Player.View, Views;
      Replace(k, k, p);
      assert users == old(users)[k := p] && (old(Views()) - {k})[k := p.View()] == old(Views())[k := p.View()];
    }

    /** A new record, under a key that may be taken over. */
    method Add(k: Key, v: Runner)
      requires Valid() && v.identity == k
      modifies `users
      ensures Valid() && users.Keys == old(users.Keys) + {k} && fresh(users[k])
      ensures forall j :: j in old(users) && j != k ==> users[j] == old(users[j])
      ensures State() == M.SetAt(old(State()), k, v)
    {
      hide Player.View, Views;
      var p := new Player(v);
      Insert(k, p);
    }

    /** The runner at `k` is found or made, and caught up. */
    method Arrive(k: Key, nick: Name, account: Option<Name>, now: Time)
      requires Valid()
      modifies `users, `pending, `rng, (if k in users then {users[k]} else {})
      ensures Valid() && k in users && users.Keys == old(users.Keys) + {k}
      ensures forall j :: j in old(users) ==> users[j] == old(users[j])
      ensures k !in old(users) ==> fresh(users[k])
      ensures State() == M.Arrive(old(State()), k, nick, account, now)
    {
      hide M.Resume, M.AdvanceAt, Store.Contents;
      if k !in users {
        Add(k, M.NewRunner(k, nick, account, now, rules));
      } else if users[k].connected {
        AdvanceAt(k, now);
      } else {
        Resume(k, now);
      }
    }

    /** The runner at `k` is on the Grid, linked and saved. */
    method Enter(k: Key, nick: Name, account: Option<Name>, now: Time)
      requires Valid()
      modifies `users, `pending, `rng, store`players, (if k in users then {users[k]} else {})
      ensures Valid() && fresh(users.Values - old(users.Values))
      ensures State() == M.Enter(old(State()), k, nick, account, now)
    {
      hide M.Arrive, M.SaveAt, M.SetAt, M.Linked, Player.View, Views, Store.Contents;
      Arrive(k, nick, account, now);
      LinkAt(k, nick, account, now);
    }

    method LinkAt(k: Key, nick: Name, account: Option<Name>, now: Time)
      requires Valid() && k in users
      modifies store`players, users[k]
      ensures Valid() && users == old(users)
      ensures var s := old(State()); State() == M.SaveAt(M.SetAt(s, k, M.Linked(s.users[k], nick, account, now)), k)
    {
      hide M.SaveAt, M.Linked, Player.View, Store.Contents;
      users[k].Enlink(nick, account, now);
      Put(k);
      SaveAt(k);
    }

    /** The guest at `g` is advanced, saved, and merged into the account's runner. */
    method Migrate(g: Key, account: Name, nick: Name, now: Time) returns (rekeyed: bool)
      requires Valid() && g in users
      modifies this, store, users[g]
      ensures Valid() && fresh(users.Values - old(users.Values))
      ensures State() == M.Migrate(old(State()), g, account, nick, now)
      ensures rekeyed == M.Rekeys(old(world).contract, g, AccountKey(account))
    {
      hide M.AdvanceAt, M.SaveAt, M.Rekey, M.Migrate, StoreRows.MigrateGuest, Player.View, Store.Contents;
      var id := AccountKey(account);
      AdvanceAt(g, now);
      SaveAt(g);
      ghost var s1 := State();
      Absorb(g, id, account, nick);
      rekeyed := Rekey(g, id);
      MigrateIs(old(State()), s1, g, account, nick, now, users[id].View(), State().repo.players);
    }

    /** The store merges the two rows, and the merged record replaces the guest's. */
    method Absorb(g: Key, id: Key, account: Name, nick: Name)
      requires Valid() && g in users && g in store.players
      modifies `users, store`players
      ensures Valid() && fresh(users.Values - old(users.Values)) && id in users
      ensures StoreRows.MigrateGuest(old(State()).repo.players, g, id, account, nick)
           == Some((users[id].View(), State().repo.players))
      ensures State() == old(State()).(users := (old(Views()) - {g})[id := users[id].View()],
                                       repo := old(State()).repo.(players := State().repo.players))
    {
      hide Player.View, Views, StoreRows.MigrateGuest;
      var merged := store.MigrateGuest(g, id, account, nick);
      if merged != null {
        Replace(g, id, merged);
      }
    }

    method Join(nick: Name, account: Option<Name>, now: Time) returns (ghost order: seq<Key>)
      requires Valid()
      modifies this, store, users.Values
      ensures Valid() && fresh(users.Values - old(users.Values)) && Enumerates(order, old(users.Keys))
      ensures State() == M.Join(old(State()), nick, account, now, order)
    {
      hide M.Migrate, M.Enter, M.Migratable, M.Rekeys, M.SaveWorld, Player.View, Views, Store.Contents;
      var k := M.JoinKey(nick, account);
      var g, rekeyed := None, false;
      if account.Some? {
        g, order := Migratable(nick, account.value);
        if g.Some? {
          rekeyed := Migrate(g.value, account.value, nick, now);
        }
      } else {
        order := Walk();
      }
      Enter(k, nick, account, now);
      if rekeyed {
        SaveWorld();
      }
    }

    /** The runner of another account goes offline when its user switches accounts. */
    method SwitchOff(k: Key, now: Time) returns (failed: bool)
      requires Valid() && k in users
      modifies `world, `pending, store`players, users[k]
      ensures Valid() && users == old(users)
      ensures State() == M.SwitchOff(old(State()), k, now)
      ensures failed == M.Breaks(old(world).contract, k)
    {
      hide M.AdvanceAt, M.MarkAt, M.SaveAt, Player.View, Store.Contents;
      AdvanceAt(k, now);
      label advanced:
      users[k].GoDark(now);
      Put@advanced(k);
      failed := MarkAt(k);
      SaveAt(k);
    }

    method Bind(nick: Name, account: Name, now: Time) returns (ghost order: seq<Key>, ghost joinOrder: seq<Key>)
      requires Valid()
      modifies this, store, users.Values
      ensures Valid() && fresh(users.Values - old(users.Values))
      ensures Enumerates(order, old(users.Keys)) && Enumerates(joinOrder, old(users.Keys))
      ensures State() == M.Bind(old(State()), nick, account, now, order, joinOrder)
    {
      hide M.SwitchOff, M.Join, M.FirstConnected, Player.View, Store.Contents;
      var hit;
      hit, order := FindConnected(nick);
      joinOrder := order;
      if account.fold == "" { return; }
      var failed := false;
      if hit.Some? && !users[hit.value].View().guest && hit.value != AccountKey(account) {
        failed := SwitchOff(hit.value, now);
      }
      joinOrder := Join(nick, Some(account), now);
      if failed {
        SaveWorld();
      }
    }

    // ---- Commands ----

    method AliasTaken(k: Key, alias: Name) returns (taken: bool)
      ensures taken == M.AliasTaken(Views(), k, alias)
    {
      var keys := Walk();
      for i := 0 to |keys|
        invariant forall j :: j in keys[..i] && j != k ==>
          !((users[j].alias.Some? && EqualFold(users[j].alias.value, alias)) || EqualFold(users[j].nick, alias))
      {
        var other := users[keys[i]];
        if keys[i] != k && ((other.alias.Some? && EqualFold(other.alias.value, alias))
                            || EqualFold(other.nick, alias)) {
          assert keys[i] in Views();
          return true;
        }
      }
      taken := false;
    }

    method SetAlias(identity: Option<Key>, nick: Name, alias: Option<Name>, now: Time)
      returns (ok: bool, ghost order: seq<Key>)
      requires Valid()
      modifies `pending, store`players, users.Values
      ensures Valid() && users == old(users) && Enumerates(order, users.Keys)
      ensures (State(), ok) == M.SetAlias(old(State()), identity, nick, alias, now, order)
    {
      hide M.AdvanceAt, M.SaveAt, M.SetAt, M.Find, M.AliasTaken, ValidAlias, Player.View, Store.Contents;
      var hit;
      hit, order := Find(identity, nick);
      ok := false;
      if hit.None? || (alias.Some? && !ValidAlias(alias.value)) { return; }
      var k := hit.value;
      if alias.Some? {
        var taken := AliasTaken(k, alias.value);
        if taken { return; }
      }
      Realias(k, alias, now);
      ok := true;
    }

    method Realias(k: Key, alias: Option<Name>, now: Time)
      requires Valid() && k in users
      modifies `pending, store`players, users[k]
      ensures Valid() && users == old(users)
      ensures var s := M.AdvanceAt(old(State()), k, now);
              State() == M.SaveAt(M.SetAt(s, k, s.users[k].(alias := alias, lastSeenAt := now)), k)
    {
      hide M.AdvanceAt, M.SaveAt, Player.View, Store.Contents;
      AdvanceAt(k, now);
      label advanced:
      users[k].TakeAlias(alias, now);
      Put@advanced(k);
      SaveAt(k);
    }

    method SetStance(identity: Option<Key>, nick: Name, stance: Stance, now: Time)
      returns (ok: bool, ghost order: seq<Key>)
      requires Valid()
      modifies `pending, store`players, users.Values
      ensures Valid() && users == old(users) && Enumerates(order, users.Keys)
      ensures (State(), ok) == M.SetStance(old(State()), identity, nick, stance, now, order)
    {
      hide M.AdvanceAt, M.SaveAt, M.Find, Player.View, Store.Contents;
      var hit;
      hit, order := Find(identity, nick);
      if hit.None? { return false, order; }
      var k := hit.value;
      AdvanceAt(k, now);
      label advanced:
      users[k].TakeStance(stance, now);
      Put@advanced(k);
      SaveAt(k);
      ok := true;
    }

    /** A first faction is free to choose; another only once, inside a crash window. */
    method MaySwap(p: Player, faction: Faction, now: Time) returns (ok: bool)
      ensures ok == M.MaySwap(p.View(), world, faction, now)
    {
      if p.faction == faction { return false; }
      if p.faction != Unaffiliated {
        if !M.SwapOpen(world, now) { return false; }
        if p.lastFactionSwapAt >= world.swapStartedAt { return false; }
      }
      ok := true;
    }

    method SetFaction(identity: Option<Key>, nick: Name, faction: Faction, now: Time)
      returns (ok: bool, ghost order: seq<Key>)
      requires Valid()
      modifies `pending, store`players, users.Values
      ensures Valid() && users == old(users) && Enumerates(order, users.Keys)
      ensures (State(), ok) == M.SetFaction(old(State()), identity, nick, faction, now, order)
    {
      hide M.AdvanceAt, M.SaveAt, M.Find, M.SwapOpen, M.MaySwap, M.SetAt, Player.View, Store.Contents;
      var hit;
      hit, order := Find(identity, nick);
      ok := false;
      if faction == Unaffiliated || hit.None? { return; }
      var k, open := hit.value, M.SwapOpen(world, now);
      var allowed := MaySwap(users[k], faction, now);
      if !allowed { return; }
      Respec(k, faction, open, now);
      ok := true;
    }

    method Respec(k: Key, faction: Faction, inWindow: bool, now: Time)
      requires Valid() && k in users
      modifies `pending, store`players, users[k]
      ensures Valid() && users == old(users)
      ensures var s := M.AdvanceAt(old(State()), k, now);
              var p := s.users[k];
              State() == M.SaveAt(M.SetAt(s, k, p.(faction := faction, lastSeenAt := now,
                                                   lastFactionSwapAt :=
                                                     if inWindow then now else p.lastFactionSwapAt)), k)
    {
      hide M.AdvanceAt, M.SaveAt, Player.View, Store.Contents;
      AdvanceAt(k, now);
      label advanced:
      users[k].TakeFaction(faction, inWindow, now);
      Put@advanced(k);
      SaveAt(k);
    }

    method Activity(identity: Option<Key>, nick: Name, channel: Name, kind: M.Kind, length: int, now: Time)
      returns (ghost order: seq<Key>)
      requires Valid()
      modifies `pending, store`players, users.Values
      ensures Valid() && users == old(users) && Enumerates(order, users.Keys)
      ensures State() == M.Activity(old(State()), identity, nick, channel, kind, length, now, order)
    {
      hide M.AdvanceAt, M.SaveAt, M.Find, M.Spoken, Player.View, Store.Contents;
      var hit;
      hit, order := Find(identity, nick);
      if !EqualFold(channel, rules.gameChannel) || hit.None? { return; }
      var k := hit.value;
      AdvanceAt(k, now);
      label advanced:
      users[k].Speak(world, kind, length, now, rules);
      Put@advanced(k);
      SaveAt(k);
    }

    method Status(identity: Option<Key>, nick: Name, now: Time) returns (hit: Option<Key>, ghost order: seq<Key>)
      requires Valid()
      modifies `pending, store`players, users.Values
      ensures Valid() && users == old(users) && Enumerates(order, users.Keys)
      ensures State() == M.Status(old(State()), identity, nick, now, order)
    {
      hide M.AdvanceAt, M.SaveAt, M.Find, Player.View, Store.Contents;
      hit, order := Find(identity, nick);
      if hit.Some? {
        AdvanceAt(hit.value, now);
        SaveAt(hit.value);
      }
    }

    method Refresh(k: Key, now: Time)
      requires Valid() && k in users
      modifies `pending, store`players, users[k]
      ensures Valid() && users == old(users)
      ensures State() == M.RefreshAt(old(State()), k, now)
    {
      hide M.AdvanceAt, M.SaveAt, Store.Contents;
      if users[k].connected {
        AdvanceAt(k, now);
        SaveAt(k);
      }
    }

    /** Every linked runner is caught up and saved. */
    method RefreshAll(now: Time) returns (ghost order: seq<Key>)
      requires Valid()
      modifies `pending, store`players, users.Values
      ensures Valid() && users == old(users) && Enumerates(order, users.Keys)
      ensures State() == M.RefreshAll(old(State()), order, now)
    {
      hide M.RefreshAt, State, Player.View;
      var keys := Walk();
      order := keys;
      for i := 0 to |keys|
        invariant Valid() && users == old(users)
        invariant State() == M.RefreshAll(old(State()), keys[..i], now)
      {
        Refresh(keys[i], now);
        assert keys[..i + 1][..i] == keys[..i];
      }
      assert keys[..|keys|] == keys;
    }

    /** The leaderboard: everybody linked is caught up, then the store ranks its rows. */
    method Top(limit: int, now: Time)
      returns (rows: seq<Runner>, ghost order: seq<Key>, ghost ranking: seq<Key>)
      requires Valid()
      modifies `pending, store`players, users.Values
      ensures Valid() && users == old(users) && Enumerates(order, users.Keys)
      ensures State() == M.RefreshAll(old(State()), order, now)
      ensures Ranked(rows, State().repo.players, if limit < 1 then 10 else limit, ranking)
    {
      hide M.RefreshAll, Player.View, Ranked, Views;
      order := RefreshAll(now);
      rows, ranking := store.Top(if limit < 1 then 10 else limit);
    }

    // ---- Leaving and renaming ----

    method DisconnectAt(k: Key, kind: M.Kind, now: Time)
      requires Valid() && k in users
      modifies `world, `pending, store, users[k]
      ensures Valid() && users == old(users)
      ensures State() == M.DisconnectAt(old(State()), k, kind, now)
    {
      hide M.AdvanceAt, M.MarkAt, M.SaveAt, M.SaveWorld, M.Breaks, M.Unlinked, Player.View, Store.Contents;
      AdvanceAt(k, now);
      label advanced:
      users[k].Unlink(kind, now, rules);
      Put@advanced(k);
      if kind == M.Netsplit {
        SaveAt(k);
      } else {
        var failed := MarkAt(k);
        SaveAt(k);
        if failed {
          SaveWorld();
        }
      }
    }

    method Disconnect(nick: Name, kind: M.Kind, now: Time) returns (ghost order: seq<Key>)
      requires Valid()
      modifies `world, `pending, store, users.Values
      ensures Valid() && users == old(users) && Enumerates(order, users.Keys)
      ensures State() == M.Disconnect(old(State()), nick, kind, now, order)
    {
      hide M.DisconnectAt, M.Find, Store.Contents;
      var hit;
      hit, order := Find(None, nick);
      if hit.Some? && users[hit.value].connected {
        DisconnectAt(hit.value, kind, now);
      }
    }

    method Pause(k: Key, now: Time)
      requires Valid() && k in users
      modifies `pending, store`players, users[k]
      ensures Valid() && users == old(users)
      ensures State() == M.PauseAt(old(State()), k, now)
    {
      hide M.AdvanceAt, M.SaveAt, Player.View, Store.Contents;
      if users[k].View().connected {
        Suspend(k, now);
      }
    }

    method Suspend(k: Key, now: Time)
      requires Valid() && k in users
      modifies `pending, store`players, users[k]
      ensures Valid() && users == old(users)
      ensures var s := M.AdvanceAt(old(State()), k, now);
              State() == M.SaveAt(M.SetAt(s, k,
                                          s.users[k].(connected := false, lastProgressAt := now, lastHeatAt := now)), k)
    {
      hide M.AdvanceAt, M.SaveAt, Player.View, Store.Contents;
      AdvanceAt(k, now);
      label advanced:
      users[k].Suspend(now);
      Put@advanced(k);
      SaveAt(k);
    }

    method DisconnectAll(now: Time) returns (ghost order: seq<Key>)
      requires Valid()
      modifies `pending, `missing, store`players, users.Values
      ensures Valid() && users == old(users) && Enumerates(order, users.Keys)
      ensures State() == M.DisconnectAll(old(State()), now, order)
    {
      hide M.PauseAt, Player.View, Views, Store.Contents;
      var keys := Walk();
      order := keys;
      for i := 0 to |keys|
        modifies `pending, store`players, users.Values
        invariant Valid() && users == old(users)
        invariant State() == M.PauseAll(old(State()), keys[..i], now)
      {
        Pause(keys[i], now);
        assert keys[..i + 1][..i] == keys[..i];
      }
      assert keys[..|keys|] == keys;
      missing := map[];
    }

    method DropAt(k: Key, now: Time) returns (failed: bool)
      requires Valid() && k in users
      modifies `world, `pending, store`players, users[k]
      ensures Valid() && users == old(users)
      ensures State() == M.DropAt(old(State()), k, now)
      ensures failed == M.Breaks(old(world).contract, k)
      ensures failed ==> world.contract.Some? && world.contract.value.failed
      ensures !failed ==> world == old(world)
    {
      hide M.AdvanceAt, M.MarkAt, M.SaveAt, Player.View, Store.Contents;
      AdvanceAt(k, now);
      label advanced:
      users[k].GoDark(now);
      users[k].SetStreak(0, 0);
      Put@advanced(k);
      failed := MarkAt(k);
      SaveAt(k);
    }

    /** One runner's turn in the roster check. */
    method ReconcileAt(k: Key, present: set<Name>, grace: int, now: Time) returns (failed: bool)
      requires Valid() && k in users
      modifies `world, `pending, `missing, store`players, users[k]
      ensures Valid() && users == old(users)
      ensures State() == M.ReconcileAt(old(State()), k, present, grace, now)
      ensures failed ==> M.Breaks(old(world).contract, k) && world.contract.Some? && world.contract.value.failed
      ensures !failed ==> world == old(world)
    {
      hide M.DropAt, Player.View, Store.Contents;
      failed := false;
      var p := users[k].View();
      if !p.connected || p.nick in present {
        missing := missing - {k};
      } else if k !in missing {
        missing := missing[k := now];
      } else if now - missing[k] >= grace {
        missing := missing - {k};
        failed := DropAt(k, now);
      }
    }

    /** Whoever has been missing for the whole grace period is dropped; whether that failed the contract. */
    method ReconcileAll(keys: seq<Key>, present: set<Name>, grace: int, now: Time) returns (changed: bool)
      requires Valid() && forall k <- keys :: k in users
      modifies `world, `pending, `missing, store`players, users.Values
      ensures Valid() && users == old(users)
      ensures State() == M.ReconcileAll(old(State()), keys, present, grace, now)
      ensures changed <==> world.contract != old(world).contract
    {
      hide M.ReconcileAt, State, Player.View, Store.Contents;
      changed := false;
      for i := 0 to |keys|
        invariant Valid() && users == old(users)
        invariant State() == M.ReconcileAll(old(State()), keys[..i], present, grace, now)
        invariant changed <==> world.contract != old(world).contract
        invariant changed ==> world.contract.Some? && world.contract.value.failed
      {
        var failed := ReconcileAt(keys[i], present, grace, now);
        changed := failed || changed;
        assert keys[..i + 1][..i] == keys[..i];
      }
      assert keys[..|keys|] == keys;
    }

    method Reconcile(present: set<Name>, grace: int, now: Time) returns (ghost order: seq<Key>)
      requires Valid()
      modifies `world, `pending, `missing, store, users.Values
      ensures Valid() && users == old(users) && Enumerates(order, users.Keys)
      ensures State() == M.Reconcile(old(State()), present, grace, now, order)
    {
      hide M.ReconcileAll, M.Watched, Player.View, Views, Store.Contents;
      var keys := Walk();
      order := keys;
      var changed := ReconcileAll(keys, present, grace, now);
      ForgetOffline();
      if changed {
        SaveWorld();
      }
    }

    /** Nobody offline or gone is being missed. */
    method ForgetOffline()
      modifies `missing
      ensures missing == M.Watched(old(missing), Views())
    {
      hide Player.View;
      var todo := missing.Keys;
      while todo != {}
        invariant todo <= missing.Keys <= old(missing).Keys
        invariant forall k :: k in missing ==> missing[k] == old(missing)[k]
        invariant forall k :: k in old(missing) && k !in todo ==>
          (k in missing <==> k in users && users[k].View().connected)
        decreases todo
      {
        var k :| k in todo;
        todo := todo - {k};
        if k !in users || !users[k].View().connected {
          missing := missing - {k};
        }
      }
    }

    method Rehome(k: Key, to: Key)
      requires Valid() && k in users && to !in users
      modifies `users, users[k]
      ensures Valid() && fresh(users.Values - old(users.Values)) && to in users
      ensures var s := old(State()); State() == s.(users := (s.users - {k})[to := s.users[k].(identity := to)])
    {
      hide Player.View, Views, Store.Contents;
      var p := users[k];
      Forget(k);
      p.Reidentify(to);
      Insert(to, p);
    }

    /** The record at `k` leaves the map. */
    method Forget(k: Key)
      requires Valid() && k in users
      modifies `users
      ensures Valid() && users == old(users) - {k} && old(users[k]) !in users.Values
      ensures var s := old(State());
              State() == s.(users := s.users - {k}) && k in s.users && s.users[k] == old(users[k].View())
    {
      hide Player.View, Store.Contents;
      users := users - {k};
    }

    /** A guest's record and contract seat follow it to its new key. */
    method MoveRunner(k: Key, to: Key) returns (rekeyed: bool)
      requires Valid() && k in users && to !in users
      modifies `users, `world, store`players, users[k]
      ensures Valid() && fresh(users.Values - old(users.Values)) && to in users
      ensures State() == M.MoveRunner(old(State()), k, to)
      ensures rekeyed == M.Rekeys(old(world).contract, k, to)
    {
      hide M.Rekey, Player.View, Views;
      Rehome(k, to);
      rekeyed := Rekey(k, to);
      store.Delete(k);
    }

    method RenameAt(k: Key, newNick: Name, now: Time)
      requires Valid() && k in users
      modifies `users, `world, `pending, store, users[k]
      ensures Valid() && fresh(users.Values - old(users.Values))
      ensures State() == M.RenameAt(old(State()), k, newNick, now)
    {
      hide M.AdvanceAt, M.SaveAt, M.SetAt, M.Renamed, M.MoveRunner, M.Rekeys, Player.View, Store.Contents;
      var to := GuestKey(newNick);
      var moves := users[k].View().guest && to != k && to !in users;
      AdvanceAt(k, now);
      label advanced:
      users[k].Renick(newNick, rules);
      Put@advanced(k);
      if moves {
        Follow(k, to);
      } else {
        SaveAt(k);
      }
    }

    method Follow(k: Key, to: Key)
      requires Valid() && k in users && to !in users
      modifies `users, `world, store, users[k]
      ensures Valid() && fresh(users.Values - old(users.Values))
      ensures var t := M.SaveAt(M.MoveRunner(old(State()), k, to), to);
              State() == if M.Rekeys(old(world).contract, k, to) then M.SaveWorld(t) else t
    {
      hide M.SaveAt, M.MoveRunner, M.SaveWorld, Player.View, Store.Contents;
      var rekeyed := MoveRunner(k, to);
      SaveAt(to);
      if rekeyed {
        SaveWorld();
      }
    }

    method Rename(oldNick: Name, newNick: Name, now: Time) returns (ghost order: seq<Key>)
      requires Valid()
      modifies `users, `world, `pending, store, users.Values
      ensures Valid() && fresh(users.Values - old(users.Values)) && Enumerates(order, old(users.Keys))
      ensures State() == M.Rename(old(State()), oldNick, newNick, now, order)
    {
      hide M.RenameAt, M.Find, Store.Contents;
      var hit;
      hit, order := Find(None, oldNick);
      if hit.Some? && users[hit.value].connected {
        RenameAt(hit.value, newNick, now);
      }
    }

    // ---- Artifacts ----

    /** retireUniqueLocked: the registry entry goes, standard gear comes. */
    method RetireAt(k: Key, slot: Slot)
      requires Valid() && k in users
      modifies store`claimed, users[k]
      ensures Valid() && users == old(users)
      ensures State() == M.RetireAt(old(State()), k, slot)
    {
      hide Player.View;
      var p := users[k];
      var v := p.View();
      p.Equip(slot, Progression.StandardItem(slot, v.level));
      Put(k);
      store.ReleaseRareItem(GearIn(v.equipment, slot).name);
    }

    /** The first artifact from `start` on that is not excluded and whose claim is granted. */
    method ClaimFirst(k: Key, exclude: Option<ItemName>, start: nat) returns (hit: Option<Slot>)
      requires start < 5
      modifies store`claimed
      ensures hit == M.Unclaimed(old(State()).repo.claimed, exclude, start, 0)
      ensures State() == if hit.Some? then M.ClaimName(old(State()), ArtifactName(hit.value), k) else old(State())
    {
      hide Player.View;
      for i := 0 to 5
        invariant store.claimed == old(store.claimed)
        invariant M.Unclaimed(old(store.claimed), exclude, start, 0)
                  == M.Unclaimed(old(store.claimed), exclude, start, i)
      {
        var slot := M.RareSlot((start + i) % 5);
        if exclude != Some(ArtifactName(slot)) {
          var claimed := store.ClaimRareItem(ArtifactName(slot), k);
          if claimed { return Some(slot); }
        }
      }
      hit := None;
    }

    method EquipAt(k: Key, slot: Slot, item: Item)
      requires Valid() && k in users
      modifies users[k]
      ensures Valid() && users == old(users)
      ensures State() == M.EquipAt(old(State()), k, slot, item)
    {
      hide Player.View, Store.Contents;
      users[k].Equip(slot, item);
      Put(k);
    }

    /** The artifact just claimed goes into its slot, above on-level gear and with a few levels to live. */
    method Fit(k: Key, slot: Slot)
      requires Valid() && k in users
      modifies `rng, users[k]
      ensures Valid() && users == old(users)
      ensures State() == M.FitAt(old(State()), k, slot)
    {
      hide Player.View, M.EquipAt, M.FreshArtifact, Store.Contents;
      var v := users[k].View();
      var life := Intn(M.UNIQUE_LIFE_RANGE);
      EquipAt(k, slot, M.FreshArtifact(slot, v.level, M.UNIQUE_MIN_LIFE + life));
    }

    /** The first artifact free from a random start on, if any, is claimed and fitted. */
    method Haul(k: Key, exclude: Option<ItemName>) returns (hit: Option<Slot>)
      requires Valid() && k in users
      modifies `rng, store`claimed, users[k]
      ensures Valid() && users == old(users)
      ensures var s := M.Skip(old(State()));
              && hit == M.Unclaimed(s.repo.claimed, exclude, Draw(old(rng), 5), 0)
              && State() == if hit.None? then s else M.FitAt(M.ClaimName(s, ArtifactName(hit.value), k), k, hit.value)
    {
      hide Player.View, M.FitAt, M.ClaimName, M.Unclaimed, Draw, Rest, Store.Contents;
      var start := Intn(5);
      hit := ClaimFirst(k, exclude, start);
      if hit.Some? {
        Fit(k, hit.value);
      }
    }

    /** rareLootLocked */
    method RareLoot(k: Key, exclude: Option<ItemName>) returns (hit: Option<Slot>)
      requires Valid() && k in users
      modifies `rng, store`claimed, users[k]
      ensures Valid() && users == old(users)
      ensures State() == M.RareLoot(old(State()), k, exclude) && hit == M.LootSlot(old(State()), k, exclude)
    {
      hide Player.View, M.RareLoot, M.LootSlot, M.FitAt, M.ClaimName, M.RareLootChance, M.Unclaimed, Draw, Rest,
        Store.Contents;
      LootIs(State(), k, exclude);
      hit := None;
      var chance := M.RareLootChance(users[k].View());
      var roll := Intn(100);
      if roll < chance {
        hit := Haul(k, exclude);
      }
    }

    // ---- Tick: crash windows and contracts ----

    /** factionSwapTickLocked */
    method SwapTick(out0: seq<Msg>, now: Time) returns (out: seq<Msg>)
      modifies `world, `rng, store`world
      ensures M.TS(State(), out) == M.SwapTick(M.TS(old(State()), out0), now)
    {
      hide Draw, Rest;
      out := out0;
      if M.SwapCloses(world, now) {
        world := world.(swapUntil := 0);
        SaveWorld();
        out := out + [SystemRestored];
      } else if M.SwapStarts(world, now) {
        var next := M.NextSwap(now, rng);
        rng := Rest(rng);
        world := world.(swapStartedAt := now, swapUntil := now + FACTION_SWAP_DURATION, nextSwapAt := next);
        SaveWorld();
        out := out + [SystemCrash];
      }
    }

    /** Everybody on the contract is linked, and nobody's signal dropped. */
    method Held(c: Contract) returns (held: bool)
      requires world.contract == Some(c)
      ensures held == M.ContractHeld(State())
    {
      held := !c.failed;
      for i := 0 to |c.participants|
        invariant held <==> !c.failed && forall k :: k in c.participants[..i] ==> k in users && users[k].connected
      {
        var k := c.participants[i];
        if k !in users || !users[k].connected { held := false; }
      }
      assert c.participants[..|c.participants|] == c.participants;
    }

    method SettleAt(k: Key, success: bool, now: Time)
      requires Valid()
      modifies `pending, store`players, (if k in users then {users[k]} else {})
      ensures Valid() && users == old(users)
      ensures State() == M.SettleAt(old(State()), k, success, now)
    {
      hide M.AdvanceAt, M.SaveAt, M.Settled, Player.View, Store.Contents;
      if k in users {
        AdvanceAt(k, now);
        label advanced:
        users[k].Settle(success, rules);
        Put@advanced(k);
        SaveAt(k);
      }
    }

    method SettleAll(team: seq<Key>, success: bool, now: Time)
      requires Valid()
      modifies `pending, store`players, users.Values
      ensures Valid() && users == old(users)
      ensures State() == M.SettleAll(old(State()), team, success, now)
    {
      hide M.SettleAt, State, Player.View;
      for i := 0 to |team|
        invariant Valid() && users == old(users)
        invariant State() == M.SettleAll(old(State()), team[..i], success, now)
      {
        SettleAt(team[i], success, now);
        assert team[..i + 1][..i] == team[..i];
      }
      assert team[..|team|] == team;
    }

    /** resolveContractLocked: at the deadline, or on the tick after a drop. */
    method ResolveContract(out0: seq<Msg>, now: Time) returns (out: seq<Msg>)
      requires Valid()
      modifies `world, `pending, store`players, users.Values
      ensures Valid() && users == old(users)
      ensures M.TS(State(), out) == M.ResolveContract(M.TS(old(State()), out0), now)
    {
      hide M.SettleAll, M.ContractHeld, Player.View, Views, Store.Contents;
      out := out0;
      if !M.ContractDue(world, now) { return; }
      var c := world.contract.value;
      var success := Held(c);
      SettleAll(c.participants, success, now);
      world := world.(contract := None);
      out := out + [if success then ContractComplete else ContractFailed(c.droppedBy)];
    }

    /** The linked runners, in the order the map is walked. */
    method Linked(keys: seq<Key>) returns (team: seq<Key>)
      ensures team == M.ConnectedIn(Views(), keys)
    {
      team := [];
      for i := 0 to |keys|
        invariant team == M.ConnectedIn(Views(), keys[..i])
      {
        if keys[i] in users && users[keys[i]].connected {
          team := team + [keys[i]];
        }
        assert keys[..i + 1][..i] == keys[..i];
      }
      assert keys[..|keys|] == keys;
    }

    /** startContractLocked, once it is known that somebody is linked and no contract runs. */
    method StartContract(out0: seq<Msg>, now: Time, keys: seq<Key>) returns (out: seq<Msg>)
      modifies `world
      ensures M.TS(State(), out) == M.StartContract(M.TS(old(State()), out0), now, keys)
    {
      hide M.ConnectedIn, Player.View, Store.Contents;
      var team := Linked(keys);
      var picked := team[..Min(|team|, rules.contractMax)];
      var names := [];
      for i := 0 to |picked|
        invariant |names| == i
        invariant forall j :: 0 <= j < i ==> names[j] == DisplayName(Views()[picked[j]])
      {
        assert picked[i] in team;
        names := names + [DisplayName(users[picked[i]].View())];
      }
      assert names == M.Names(Views(), picked);
      world := world.(contract := Some(Contract(picked, now + rules.contractDuration, false, None)));
      out := out0 + [ContractStarted(names)];
    }

    // ---- Tick: pirate frequency ----

    /** deadDropExpiryLocked */
    method DropExpiry(out0: seq<Msg>, now: Time) returns (out: seq<Msg>)
      modifies `world
      ensures M.TS(State(), out) == M.DropExpiry(M.TS(old(State()), out0), now)
    {
      out := out0;
      if world.deadDrop.Some? && now >= world.pirateUntil {
        world := world.(deadDrop := None);
        out := out + [DropExpired];
      }
    }

    /** One letter of a code with `left` still to draw, and static unless it is the last. */
    method DrawLetter(left: nat) returns (letter: string, burst: string)
      requires left > 0
      modifies `rng
      ensures var drawn, next := M.DropCode(old(rng), left), M.DropCode(rng, left - 1);
              drawn.0 == letter + next.0 && drawn.1 == burst + next.1 && drawn.2 == next.2
    {
      hide Draw, Rest;
      var c := Intn(21);
      letter := [M.DROP_ALPHABET[c]];
      burst := letter;
      if left > 1 {
        var n := Intn(8);
        burst := [M.DROP_ALPHABET[c], M.DROP_NOISE[n]];
      }
    }

    method DrawCode() returns (code: string, garbled: string)
      modifies `rng
      ensures (code, garbled, rng) == M.DropCode(old(rng), M.DROP_LENGTH)
    {
      hide M.DropCode;
      code, garbled := "", "";
      ghost var drawn := M.DropCode(rng, M.DROP_LENGTH);
      for i := 0 to M.DROP_LENGTH
        invariant var rest := M.DropCode(rng, M.DROP_LENGTH - i);
                  drawn.0 == code + rest.0 && drawn.1 == garbled + rest.1 && drawn.2 == rest.2
      {
        var letter, burst := DrawLetter(M.DROP_LENGTH - i);
        code, garbled := code + letter, garbled + burst;
      }
      M.NoCode(rng);
      assert code == drawn.0 && garbled == drawn.1;
    }

    /** openPirateFrequencyLocked */
    method OpenPirateFrequency(out0: seq<Msg>, now: Time) returns (out: seq<Msg>)
      modifies `world, `rng
      ensures M.TS(State(), out) == M.OpenPirateFrequency(M.TS(old(State()), out0), now)
    {
      hide M.DropCode;
      var code, garbled := DrawCode();
      world := world.(pirateUntil := now + rules.pirateDuration, deadDrop := Some(code));
      out := out0 + [PirateFrequency(garbled)];
    }

    method ForcePirate(now: Time)
      modifies `world, `rng, store`world
      ensures State() == M.ForcePirate(old(State()), now)
    {
      hide M.OpenPirateFrequency, M.Remember;
      var out := OpenPirateFrequency([], now);
      Remember(out);
    }

    method ShardAt(k: Key) returns (who: Name)
      requires Valid() && k in users
      modifies users[k]
      ensures Valid() && users == old(users)
      ensures var s := old(State());
              State() == M.SetAt(s, k, M.Shard(s.users[k], s.rules)) && who == DisplayName(s.users[k])
    {
      hide M.Shard, Player.View, Store.Contents;
      who := DisplayName(users[k].View());
      users[k].PocketShard(rules);
      Put(k);
    }

    method ClaimAt(k: Key, now: Time)
      requires Valid() && k in users
      modifies `world, `pending, store, users[k]
      ensures Valid() && users == old(users)
      ensures State() == M.ClaimAt(old(State()), k, now)
    {
      hide M.AdvanceAt, M.SaveAt, M.SetAt, M.Shard, M.Remember, DisplayName, Player.View, Views, Store.Contents;
      AdvanceAt(k, now);
      var who := ShardAt(k);
      world := world.(deadDrop := None);
      SaveAt(k);
      Remember([DropClaimed(who)]);
    }

    method ClaimDeadDrop(identity: Option<Key>, nick: Name, channel: Name, text: string, now: Time)
      returns (ghost order: seq<Key>)
      requires Valid()
      modifies `world, `pending, store, users.Values
      ensures Valid() && users == old(users) && Enumerates(order, users.Keys)
      ensures State() == M.ClaimDeadDrop(old(State()), identity, nick, channel, text, now, order)
    {
      hide M.ClaimAt, M.Find, Player.View, Store.Contents;
      var hit;
      hit, order := Find(identity, nick);
      if !EqualFold(channel, rules.gameChannel) || world.deadDrop != Some(text) || now >= world.pirateUntil { return; }
      if hit.Some? && users[hit.value].View().connected {
        ClaimAt(hit.value, now);
      }
    }

    // ---- Tick: raids ----

    /** Everybody linked is caught up and adds to the team's power and the wall's. */
    method Muster(keys: seq<Key>, now: Time) returns (team: seq<Key>, power: int, wall: int)
      requires Valid() && Enumerates(keys, users.Keys)
      modifies `pending, users.Values
      ensures Valid() && users == old(users)
      ensures State() == M.AdvanceTeam(old(State()), keys, now)
      ensures team == M.ConnectedIn(Views(), keys)
      ensures power == M.TeamPower(Views(), team) && wall == M.TeamWall(Views(), team)
    {
      hide M.CallAt, M.RaidPower, M.RaidWall, State, Views, Player.View;
      team, power, wall := [], 0, 0;
      assert power == M.TeamPower(Views(), team) && wall == M.TeamWall(Views(), team);
      for i := 0 to |keys|
        invariant Valid() && users == old(users)
        invariant State() == M.AdvanceTeam(old(State()), keys[..i], now)
        invariant team == M.ConnectedIn(Views(), keys[..i])
        invariant power == M.TeamPower(Views(), team) && wall == M.TeamWall(Views(), team)
      {
        assert keys[..i + 1] == keys[..i] + [keys[i]] && keys[..i + 1][..i] == keys[..i];
        team, power, wall := MusterOne(keys[i], keys[..i], team, power, wall, now);
      }
      assert keys[..|keys|] == keys;
    }

    method MusterOne(k: Key, ghost rest: seq<Key>, team0: seq<Key>, power0: int, wall0: int, now: Time)
      returns (team: seq<Key>, power: int, wall: int)
      requires Valid() && k in users && k !in rest && team0 == M.ConnectedIn(Views(), rest)
      requires power0 == M.TeamPower(Views(), team0) && wall0 == M.TeamWall(Views(), team0)
      modifies `pending, users[k]
      ensures Valid() && users == old(users)
      ensures State() == M.CallAt(old(State()), k, now)
      ensures team == M.ConnectedIn(Views(), rest + [k])
      ensures power == M.TeamPower(Views(), team) && wall == M.TeamWall(Views(), team)
    {
      hide M.AdvanceAt, M.ConnectedIn, M.TeamPower, M.TeamWall, M.RaidPower, M.RaidWall, Player.View, Store.Contents;
      hide Progression.Advance;
      team, power, wall := team0, power0, wall0;
      Raids.LinkedNext(Views(), rest, k);
      if users[k].View().connected {
        ghost var before := Views();
        AdvanceAt(k, now);
        M.AdvancedAt(old(State()), k, now);
        Invariants.AdvanceFrame(before[k], now, rules);
        Raids.LinkedElsewhere(before, rest, k, Views()[k]);
        Raids.LinkedNext(Views(), rest, k);
        Raids.SumsElsewhere(before, team, k, Views()[k]);
        Raids.SumsGrow(Views(), team, k);
        var p := users[k].View();
        team, power, wall := team + [k], power + M.RaidPower(p), wall + M.RaidWall(p);
      }
    }

    method PayAt(k: Key, won: bool)
      requires Valid() && k in users
      modifies store`players, users[k]
      ensures Valid() && users == old(users)
      ensures var s := old(State()); State() == M.SaveAt(M.SetAt(s, k, M.Raided(s.users[k], won, s.rules)), k)
    {
      hide M.SaveAt, M.Raided, Player.View, Store.Contents;
      users[k].ShareRaid(won, rules);
      Put(k);
      SaveAt(k);
    }

    method PayTeam(team: seq<Key>, won: bool)
      requires Valid() && forall k <- team :: k in users
      modifies store`players, users.Values
      ensures Valid() && users == old(users)
      ensures State() == M.PayTeam(old(State()), team, won)
    {
      hide M.SaveAt, M.SetAt, M.Raided, Player.View, Store.Contents;
      for i := 0 to |team|
        invariant Valid() && users == old(users)
        invariant State() == M.PayTeam(old(State()), team[..i], won)
      {
        PayAt(team[i], won);
        assert team[..i + 1][..i] == team[..i];
      }
      assert team[..|team|] == team;
    }

    /** The team that answered the call against the wall, under this tick's roll. */
    method Assault(out0: seq<Msg>, team: seq<Key>, power: int, wall: int) returns (out: seq<Msg>)
      requires Valid() && team != [] && forall k <- team :: k in users
      requires power == M.TeamPower(Views(), team) && wall == M.TeamWall(Views(), team)
      modifies `rng, store`players, users.Values
      ensures Valid() && users == old(users)
      ensures var won := M.TeamWins(old(State()), team);
              && State() == M.PayTeam(M.Skip(old(State())), team, won)
              && out == out0 + [if won then RaidDown(|team|) else RaidHolds(|team|)]
    {
      hide M.TeamPower, M.TeamWall, M.PayTeam, M.Teamwork, Player.View, Store.Contents;
      var d := Intn(76);
      var won := M.RaidWon(power, wall, 55 + d, |team|);
      PayTeam(team, won);
      out := out0 + [if won then RaidDown(|team|) else RaidHolds(|team|)];
    }

    /** resolveRaidLocked */
    method ResolveRaid(out0: seq<Msg>, now: Time) returns (out: seq<Msg>, ghost order: seq<Key>)
      requires Valid()
      modifies `world, `pending, `rng, store`players, users.Values
      ensures Valid() && users == old(users) && Enumerates(order, users.Keys)
      ensures M.TS(State(), out) == M.ResolveRaid(M.TS(old(State()), out0), now, order)
    {
      hide M.RaidStep, Player.View, Views, Store.Contents;
      var keys := Walk();
      order, out := keys, out0;
      if world.raid.Some? && now >= world.raid.value {
        world := world.(raid := None);
        out := RaidStep(out, now, keys);
      }
    }

    method RaidStep(out0: seq<Msg>, now: Time, keys: seq<Key>) returns (out: seq<Msg>)
      requires Valid() && Enumerates(keys, users.Keys)
      modifies `pending, `rng, store`players, users.Values
      ensures Valid() && users == old(users)
      ensures M.TS(State(), out) == M.RaidStep(M.TS(old(State()), out0), now, keys)
    {
      hide M.AdvanceTeam, M.TeamWins, M.PayTeam, M.TeamPower, M.TeamWall, M.ConnectedIn, Player.View, Store.Contents;
      var team, power, wall := Muster(keys, now);
      if team == [] {
        out := out0 + [RaidEmpty];
      } else {
        out := Assault(out0, team, power, wall);
      }
    }

    // ---- Tick: city events ----

    method EventAt(k: Key, event: CityEvent, now: Time)
      requires Valid() && k in users
      modifies `pending, `rng, store`players, users[k]
      ensures Valid() && users == old(users)
      ensures State() == M.EventAt(old(State()), k, event, now)
    {
      hide M.AdvanceAt, M.HitAt, M.SaveAt, Player.View, Store.Contents;
      if users[k].View().connected {
        AdvanceAt(k, now);
        HitAt(k, event, now);
        SaveAt(k);
      }
    }

    method HitAt(k: Key, event: CityEvent, now: Time)
      requires Valid() && k in users
      modifies `rng, users[k]
      ensures Valid() && users == old(users)
      ensures State() == M.HitAt(old(State()), k, event, now)
    {
      hide M.EventHit, Draw, Rest, Player.View, Store.Contents;
      var scarred := false;
      if event == CorporateSweep {
        var d := Intn(20);
        scarred := d == 0;
      }
      users[k].TakeEvent(event, scarred, now);
      PutDrawn(k);
    }

    method EventAll(keys: seq<Key>, event: CityEvent, now: Time)
      requires Valid() && forall k <- keys :: k in users
      modifies `pending, `rng, store`players, users.Values
      ensures Valid() && users == old(users)
      ensures State() == M.EventAll(old(State()), keys, event, now)
    {
      hide M.EventAt, State, Player.View;
      for i := 0 to |keys|
        invariant Valid() && users == old(users)
        invariant State() == M.EventAll(old(State()), keys[..i], event, now)
      {
        EventAt(keys[i], event, now);
        assert keys[..i + 1][..i] == keys[..i];
      }
      assert keys[..|keys|] == keys;
    }

    /** What the due city event is: a pirate frequency, a raid alert, a contract, or plain news. */
    method Pick(keys: seq<Key>) returns (news: M.News)
      modifies `rng
      ensures (news, rng) == M.Pick(old(State()), keys)
    {
      hide M.ConnectedIn, Draw, Rest, Player.View, Store.Contents;
      var d := Intn(10);
      if d == 0 { return M.Pirate; }
      var linked := Linked(keys);
      d := Intn(8);
      if d == 0 && world.raid.None? && |linked| >= 2 { return M.Raid; }
      d := Intn(6);
      var kind := M.EventKind(d);
      if kind == MegacorpRun && world.contract.None? && linked != [] { return M.NewContract; }
      news := M.Event(kind);
    }

    /** cityEventLocked */
    method CityEvent(out0: seq<Msg>, now: Time, keys: seq<Key>) returns (out: seq<Msg>)
      requires Valid() && forall k <- keys :: k in users
      modifies `world, `pending, `rng, store`players, users.Values
      ensures Valid() && users == old(users)
      ensures M.TS(State(), out) == M.CityEventStep(M.TS(old(State()), out0), now, keys)
    {
      hide M.Pick, M.OpenPirateFrequency, M.StartContract, M.EventAll, Player.View, Views, Store.Contents;
      var news := Pick(keys);
      match news
      case Pirate =>
        out := OpenPirateFrequency(out0, now);
      case Raid =>
        world := world.(raid := Some(now + M.RAID_WARNING));
        out := out0 + [RaidAlert];
      case NewContract =>
        out := StartContract(out0, now, keys);
      case Event(kind) =>
        EventAll(keys, kind, now);
        out := out0 + [CityNews(kind)];
    }

    method CityEventTick(out0: seq<Msg>, now: Time) returns (out: seq<Msg>, ghost order: seq<Key>)
      requires Valid()
      modifies `world, `pending, `rng, store, users.Values
      ensures Valid() && users == old(users) && Enumerates(order, users.Keys)
      ensures M.TS(State(), out) == M.CityEventTick(M.TS(old(State()), out0), now, order)
    {
      hide M.CityEventStep, Player.View, Views, Store.Contents;
      var keys := Walk();
      order, out := keys, out0;
      if world.nextCityEventAt != 0 && now >= world.nextCityEventAt {
        out := CityEvent(out, now, keys);
        world := world.(nextCityEventAt := now + rules.cityEventInterval);
        SaveWorld();
      }
    }

    // ---- Tick: one runner ----

    /** streakTickLocked */
    method StreakStep(out0: seq<Msg>, k: Key, now: Time) returns (out: seq<Msg>)
      requires Valid() && k in users
      modifies users[k]
      ensures Valid() && users == old(users)
      ensures M.TS(State(), out) == M.StreakStep(M.TS(old(State()), out0), k, now)
    {
      hide Progression.LevelDuration, DisplayName, Player.View, Store.Contents;
      var p := users[k];
      var v := p.View();
      out := out0;
      var days := (now - v.streakSince) / M.STREAK_DAY;
      if v.streakSince == 0 {
        p.SetStreak(now, v.streakDays);
        Put(k);
      } else if days > v.streakDays {
        StreakPays(k, days);
        out := out + [GhostProtocol(DisplayName(v), days)];
      }
    }

    method StreakPays(k: Key, days: int)
      requires Valid() && k in users
      modifies users[k]
      ensures Valid() && users == old(users)
      ensures var s := old(State());
              var p := s.users[k];
              State() == M.SetAt(s, k, p.(streakDays := days,
                                          progress :=
                                            p.progress + Max(120, Progression.LevelDuration(rules, p.level) / 4)))
    {
      hide Progression.LevelDuration, Player.View, Store.Contents;
      users[k].PayStreak(days, rules);
      Put(k);
    }

    /** A due drift moves the runner to one of the other districts. */
    method DriftStep(out0: seq<Msg>, k: Key, now: Time) returns (out: seq<Msg>)
      requires Valid() && k in users
      modifies `rng, users[k]
      ensures Valid() && users == old(users)
      ensures M.TS(State(), out) == M.DriftStep(M.TS(old(State()), out0), k, now)
    {
      hide M.OtherDistrict, M.Due, M.SetAt, DisplayName, Draw, Player.View, Store.Contents;
      var v := users[k].View();
      out := out0;
      if M.Due(v.nextDistrictAt, now) {
        var to := DriftAway(k, now);
        out := out + [Drift(DisplayName(v), v.district, to)];
      }
    }

    /** The runner drifts to a random other district. */
    method DriftAway(k: Key, now: Time) returns (to: District)
      requires Valid() && k in users
      modifies `rng, users[k]
      ensures Valid() && users == old(users)
      ensures var s, p := old(State()), old(users[k].View());
              && to == M.OtherDistrict(p.district, Draw(s.rng, 4))
              && State() == M.Skip(M.SetAt(s, k, p.(district := to, nextDistrictAt := now + rules.districtInterval)))
    {
      hide M.OtherDistrict, Draw, Rest, Player.View, Store.Contents;
      var from := users[k].View().district;
      var d := Intn(4);
      to := M.OtherDistrict(from, d);
      DriftTo(k, to, now + rules.districtInterval);
    }

    method DriftTo(k: Key, to: District, next: Time)
      requires Valid() && k in users
      modifies users[k]
      ensures Valid() && users == old(users)
      ensures var s := old(State()); State() == M.SetAt(s, k, s.users[k].(district := to, nextDistrictAt := next))
    {
      hide Player.View, Store.Contents;
      users[k].DriftTo(to, next);
      Put(k);
    }

    /** The runner's side of an encounter it won or lost, scar included. */
    method FaceIce(k: Key, won: bool)
      requires Valid() && k in users
      modifies `rng, users[k]
      ensures Valid() && users == old(users)
      ensures var s := old(State());
              State() == M.Skip(M.SetAt(s, k, if won then M.IceWon(s.users[k], Draw(s.rng, 25) == 0, s.rules)
                                              else M.IceLost(s.users[k], Draw(s.rng, 12) == 0, s.rules)))
    {
      hide M.IceWon, M.IceLost, Draw, Rest, Player.View, Store.Contents;
      if won {
        var d := Intn(25);
        users[k].BeatIce(d == 0, rules);
      } else {
        var d := Intn(12);
        users[k].LoseToIce(d == 0, rules);
      }
      PutDrawn(k);
    }

    /** encounterLocked */
    method Encounter(out0: seq<Msg>, k: Key, champion: Faction) returns (out: seq<Msg>)
      requires Valid() && k in users
      modifies `rng, store`claimed, users[k]
      ensures Valid() && users == old(users)
      ensures M.TS(State(), out) == M.Encounter(M.TS(old(State()), out0), k, champion)
    {
      hide M.IceWinChance, M.IceWon, M.IceLost, M.RareLoot, M.LootSlot, DisplayName, Draw, Rest, Player.View,
        Store.Contents;
      var name, chance := DisplayName(users[k].View()), M.IceWinChance(users[k].View(), champion);
      var d := Intn(100);
      FaceIce(k, d < chance);
      if d < chance {
        var hit := RareLoot(k, None);
        out := out0 + [if hit.Some? then IceUnique(name, ArtifactName(hit.value)) else IceWin(name)];
      } else {
        out := out0 + [IceLoss(name)];
      }
    }

    method Rearm(k: Key, now: Time)
      requires Valid() && k in users
      modifies `pending, users[k]
      ensures Valid() && users == old(users)
      ensures State() == M.Rearm(old(State()), k, now)
    {
      hide M.AdvanceAt, Player.View, Store.Contents;
      users[k].Rearm(now + rules.encounterInterval);
      Put(k);
      AdvanceAt(k, now);
    }

    method EncounterStep(out0: seq<Msg>, k: Key, now: Time, champion: Faction) returns (out: seq<Msg>)
      requires Valid() && k in users
      modifies `pending, `rng, store`claimed, users[k]
      ensures Valid() && users == old(users)
      ensures M.TS(State(), out) == M.EncounterStep(M.TS(old(State()), out0), k, now, champion)
    {
      hide M.Encounter, M.Rearm, Player.View, Store.Contents;
      out := out0;
      if M.Due(users[k].View().nextEncounterAt, now) {
        out := Encounter(out, k, champion);
        Rearm(k, now);
      }
    }

    method PassiveStep(out0: seq<Msg>, k: Key, now: Time, champion: Faction) returns (out: seq<Msg>)
      requires Valid() && k in users
      modifies `pending, `rng, store`claimed, users[k]
      ensures Valid() && users == old(users)
      ensures M.TS(State(), out) == M.PassiveStep(M.TS(old(State()), out0), k, now, champion)
    {
      hide M.AdvanceAt, M.StreakStep, M.DriftStep, M.EncounterStep, Player.View, Views, Store.Contents;
      AdvanceAt(k, now);
      out := StreakStep(out0, k, now);
      out := DriftStep(out, k, now);
      out := EncounterStep(out, k, now, champion);
    }

    /** One slot of burnOutUniquesLocked: retire, then roll the drop table for something else. */
    method BurnSlot(out0: seq<Msg>, k: Key, slot: Slot) returns (out: seq<Msg>)
      requires Valid() && k in users
      modifies `rng, store`claimed, users[k]
      ensures Valid() && users == old(users)
      ensures M.TS(State(), out) == M.BurnSlot(M.TS(old(State()), out0), k, slot)
    {
      hide M.RetireAt, M.RareLoot, M.LootSlot, DisplayName, Player.View, Store.Contents;
      var v := users[k].View();
      out := out0;
      if M.BurnsOut(v, slot) {
        var item := v.equipment[slot];
        RetireAt(k, slot);
        var hit := RareLoot(k, Some(item.name));
        out := out + [BurnedOut(DisplayName(v), item.name, if hit.Some? then Some(ArtifactName(hit.value)) else None)];
      }
    }

    method BurnSlots(out0: seq<Msg>, k: Key) returns (out: seq<Msg>)
      requires Valid() && k in users
      modifies `rng, store`claimed, users[k]
      ensures Valid() && users == old(users)
      ensures M.TS(State(), out) == M.BurnSlots(M.TS(old(State()), out0), k, |SLOTS|)
    {
      hide M.BurnSlot, Player.View, Store.Contents;
      out := out0;
      for i := 0 to |SLOTS|
        invariant Valid() && users == old(users)
        invariant M.TS(State(), out) == M.BurnSlots(M.TS(old(State()), out0), k, i)
      {
        out := BurnSlot(out, k, SLOTS[i]);
      }
    }

    /** takePendingLocked, appended to the tick's messages. */
    method TakePending(out0: seq<Msg>) returns (out: seq<Msg>)
      modifies `pending
      ensures M.TS(State(), out) == M.TakePending(M.TS(old(State()), out0))
    {
      out := out0 + pending;
      pending := [];
    }

    method UpkeepStep(out0: seq<Msg>, k: Key) returns (out: seq<Msg>)
      requires Valid() && k in users
      modifies `pending, `rng, store, users[k]
      ensures Valid() && users == old(users)
      ensures M.TS(State(), out) == M.UpkeepStep(M.TS(old(State()), out0), k)
    {
      hide M.TakePending, M.BurnSlots, M.SaveAt, Player.View, Views, Store.Contents;
      out := TakePending(out0);
      out := BurnSlots(out, k);
      out := TakePending(out);
      SaveAt(k);
    }

    method RetireSlot(out0: seq<Msg>, k: Key, slot: Slot) returns (out: seq<Msg>)
      requires Valid() && k in users
      modifies store`claimed, users[k]
      ensures Valid() && users == old(users)
      ensures M.TS(State(), out) == M.RetireSlot(M.TS(old(State()), out0), k, slot)
    {
      hide M.RetireAt, DisplayName, Player.View, Store.Contents;
      var v := users[k].View();
      out := out0;
      if Holds(v, slot) {
        RetireAt(k, slot);
        out := out + [WentDark(DisplayName(v), v.equipment[slot].name)];
      }
    }

    /** releaseAbandonedUniquesLocked */
    method Abandon(out0: seq<Msg>, k: Key) returns (out: seq<Msg>)
      requires Valid() && k in users
      modifies store, users[k]
      ensures Valid() && users == old(users)
      ensures M.TS(State(), out) == M.Abandon(M.TS(old(State()), out0), k)
    {
      hide M.RetireSlot, M.SaveAt, Player.View, Store.Contents;
      out := [];
      for i := 0 to |SLOTS|
        invariant Valid() && users == old(users)
        invariant M.TS(State(), out) == M.RetireSlots(M.TS(old(State()), []), k, i)
      {
        out := RetireSlot(out, k, SLOTS[i]);
      }
      if out != [] {
        SaveAt(k);
      }
      out := out0 + out;
    }

    method PruneAt(k: Key)
      requires Valid() && k in users
      modifies `users, store`players
      ensures Valid() && users == old(users) - {k}
      ensures State() == M.PruneAt(old(State()), k)
    {
      hide Player.View, Views;
      Forget(k);
      store.Delete(k);
    }

    method RunnerStep(out0: seq<Msg>, k: Key, now: Time, champion: Faction) returns (out: seq<Msg>)
      requires Valid() && k in users
      modifies `users, `pending, `rng, store, users[k]
      ensures Valid() && users.Values <= old(users.Values) && forall j :: j in old(users) && j != k ==> j in users
      ensures M.TS(State(), out) == M.RunnerStep(M.TS(old(State()), out0), k, now, champion)
    {
      hide M.PruneAt, M.Abandon, M.PassiveStep, M.UpkeepStep, Player.View, Store.Contents;
      var v := users[k].View();
      out := out0;
      if M.Pruned(v, now, rules) {
        PruneAt(k);
      } else if M.OfflineLonger(v, now, rules.artifactRelease) {
        out := Abandon(out, k);
      } else if v.connected {
        out := PassiveStep(out, k, now, champion);
        out := UpkeepStep(out, k);
      }
    }

    method RunnerSteps(out0: seq<Msg>, now: Time, champion: Faction) returns (out: seq<Msg>, ghost order: seq<Key>)
      requires Valid()
      modifies `users, `pending, `rng, store, users.Values
      ensures Valid() && fresh(users.Values - old(users.Values)) && Enumerates(order, old(users.Keys))
      ensures M.TS(State(), out) == M.RunnerSteps(M.TS(old(State()), out0), order, now, champion)
    {
      hide M.RunnerStep, M.RunnerSteps, Player.View, State;
      var keys := Walk();
      order, out := keys, out0;
      M.WalkedSoFar(M.TS(old(State()), out0), keys, 0, now, champion);
      for i := 0 to |keys|
        invariant Valid() && users.Values <= old(users.Values) && forall j :: i <= j < |keys| ==> keys[j] in users
        invariant M.TS(State(), out) == M.RunnerSteps(M.TS(old(State()), out0), keys[..i], now, champion)
      {
        out := RunnerStep(out, keys[i], now, champion);
        M.WalkedSoFar(M.TS(old(State()), out0), keys, i, now, champion);
      }
      assert keys[..|keys|] == keys;
    }

    // ---- Tick: collisions and theft ----

    /** The linked runners whose collision timer has run out. */
    method DueForCollision(now: Time) returns (due: seq<Key>, ghost order: seq<Key>)
      ensures Enumerates(order, users.Keys) && due == M.CollisionDue(Views(), order, now)
      ensures forall k <- due :: k in users
    {
      hide M.Due, Player.View;
      var keys := Walk();
      order, due := keys, [];
      for i := 0 to |keys|
        invariant due == M.CollisionDue(Views(), keys[..i], now)
      {
        var p := users[keys[i]].View();
        if p.connected && M.Due(p.nextCollisionAt, now) {
          due := due + [keys[i]];
        }
        assert keys[..i + 1][..i] == keys[..i];
      }
      assert keys[..|keys|] == keys;
    }

    /** Whom the initiator may meet: anybody else linked, or only those in the same district if there are any. */
    method Pool(a: Key) returns (pool: seq<Key>, ghost order: seq<Key>)
      requires a in users
      ensures Enumerates(order, users.Keys) && pool == M.Pool(Views(), order, a)
      ensures forall k <- pool :: k in users && k != a
    {
      var keys := Walk();
      order := keys;
      var near, anywhere := [], [];
      for i := 0 to |keys|
        invariant near == M.Others(Views(), keys[..i], a, true)
        invariant anywhere == M.Others(Views(), keys[..i], a, false)
      {
        var p := users[keys[i]];
        if p.connected && keys[i] != a {
          anywhere := anywhere + [keys[i]];
          if p.district == users[a].district {
            near := near + [keys[i]];
          }
        }
        assert keys[..i + 1][..i] == keys[..i];
      }
      assert keys[..|keys|] == keys;
      pool := if near == [] then anywhere else near;
    }

    /** pickOpponentLocked, once there is somebody to meet. */
    method Opponent(pool: seq<Key>, a: Key) returns (b: Key)
      requires a in users && pool != []
      modifies `rng
      ensures (b, rng) == M.Opponent(old(State()), pool, a) && b in pool
    {
      hide TopRival, Draw, Rest, Player.View, Store.Contents;
      var rival := FindTopRival(users[a].View().rivals);
      if rival.Some? {
        var d := Intn(2);
        if d == 0 && rival.value in pool { return rival.value; }
      }
      var d := Intn(|pool|);
      b := pool[d];
    }

    /** recordBout, and which round of a rivalry this is. */
    method RecordBout(a: Key, b: Key) returns (round: Option<nat>)
      requires Valid() && a in users && b in users && a != b
      modifies users[a], users[b]
      ensures Valid() && users == old(users)
      ensures State() == M.RecordBout(old(State()), a, b) && round == M.Round(Views(), a, b)
    {
      hide M.CountBout, Player.View, Store.Contents, TopRival;
      users[a].CountBout(b);
      Put(a);
      label half:
      users[b].CountBout(a);
      Put@half(b);
      var first := FindTopRival(users[a].View().rivals);
      var second := FindTopRival(users[b].View().rivals);
      round := if first == Some(b) && second == Some(a) then Some(Bouts(users[a].View().rivals, b)) else None;
    }

    method WinAt(k: Key, kind: nat, scarred: bool)
      requires Valid() && k in users
      modifies users[k]
      ensures Valid() && users == old(users)
      ensures var s := old(State()); State() == M.SetAt(s, k, M.Won(s.users[k], kind, scarred, s.rules))
    {
      hide M.Won, Player.View, Store.Contents;
      users[k].WinBout(kind, scarred, rules);
      Put(k);
    }

    method LoseAt(k: Key, kind: nat)
      requires Valid() && k in users
      modifies users[k]
      ensures Valid() && users == old(users)
      ensures var s := old(State()); State() == M.SetAt(s, k, M.Lost(s.users[k], kind, s.rules))
    {
      hide M.Lost, Player.View, Store.Contents;
      users[k].LoseBout(kind, rules);
      Put(k);
    }

    /** Rewards and losses, scar and drone of a bout. */
    method Blows(winner: Key, loser: Key)
      requires Valid() && winner in users && loser in users && winner != loser
      modifies `rng, users[winner], users[loser]
      ensures Valid() && users == old(users)
      ensures State() == M.Blows(old(State()), winner, loser)
    {
      hide M.Won, M.Lost, Draw, Rest, Player.View, Views, Store.Contents;
      var scar := Intn(20);
      var kind := Intn(4);
      WinAt(winner, kind, scar == 0);
      LoseAt(loser, kind);
    }

    /** The loser's slots with artifacts in them. */
    method UniqueSlots(p: Player) returns (slots: seq<Slot>)
      ensures slots == M.UniqueSlots(p.View(), |SLOTS|)
    {
      slots := [];
      for i := 0 to |SLOTS|
        invariant slots == M.UniqueSlots(p.View(), i)
      {
        if GearIn(p.equipment, SLOTS[i]).unique {
          slots := slots + [SLOTS[i]];
        }
      }
    }

    method Register(name: ItemName, owner: Key)
      modifies store`claimed
      ensures State() == M.Register(old(State()), name, owner)
    {
      hide Player.View, Transfer;
      store.TransferRareItem(name, owner);
    }

    /** The artifact changes hands with its remaining lifespan, and the loser is refitted. */
    method StealAt(winner: Key, loser: Key, slot: Slot)
      requires Valid() && winner in users && loser in users && winner != loser && Holds(users[loser].View(), slot)
      modifies store`claimed, users[winner], users[loser]
      ensures Valid() && users == old(users)
      ensures State() == M.StealAt(old(State()), winner, loser, slot)
    {
      hide Player.View, Progression.StandardItem, M.EquipAt, M.Register, Store.Contents;
      var w, l := users[winner].View(), users[loser].View();
      var item := l.equipment[slot];
      var remaining := Max(1, item.breaksAt - l.level);
      Register(item.name, winner);
      EquipAt(winner, slot, item.(breaksAt := w.level + remaining));
      EquipAt(loser, slot, Progression.StandardItem(slot, l.level));
    }

    /** The slot a theft empties, if the odds and the loser's gear allow one. */
    method TheftSlot(loser: Key) returns (hit: Option<Slot>)
      requires Valid() && loser in users
      modifies `rng
      ensures hit == M.TheftSlot(old(State()), loser)
      ensures hit.Some? ==> M.UniqueSlots(users[loser].View(), |SLOTS|) != []
      ensures State() == if M.UniqueSlots(users[loser].View(), |SLOTS|) == [] then old(State())
                         else if hit.None? then M.Skip(old(State())) else M.Skip(M.Skip(old(State())))
    {
      hide M.UniqueSlots, Draw, Rest, Player.View, Store.Contents;
      hit := None;
      var slots := UniqueSlots(users[loser]);
      if slots == [] { return; }
      var d := Intn(100);
      if d < M.THEFT_CHANCE {
        d := Intn(|slots|);
        hit := Some(slots[d]);
      }
    }

    /** stealUniqueLocked */
    method Theft(winner: Key, loser: Key) returns (stolen: Option<ItemName>)
      requires Valid() && winner in users && loser in users && winner != loser
      modifies `rng, store`claimed, users[winner], users[loser]
      ensures Valid() && users == old(users)
      ensures State() == M.Theft(old(State()), winner, loser)
      ensures var s := old(State());
              var hit := M.TheftSlot(s, loser);
              stolen == if hit.Some? then Some(s.users[loser].equipment[hit.value].name) else None
    {
      hide M.StealAt, M.TheftSlot, M.UniqueSlots, Player.View, Store.Contents;
      stolen := None;
      var hit := TheftSlot(loser);
      if hit.Some? {
        stolen := Some(users[loser].View().equipment[hit.value].name);
        StealAt(winner, loser, hit.value);
      }
    }

    method CooledDown(k: Key, now: Time)
      requires Valid() && k in users
      modifies users[k]
      ensures Valid() && users == old(users)
      ensures State() == M.CooledDown(old(State()), k, now)
    {
      hide Player.View, Store.Contents;
      users[k].CoolDown(now + rules.collisionInterval);
      Put(k);
    }

    /** Both runners cool down and are saved. */
    method Separate(winner: Key, loser: Key, now: Time)
      requires Valid() && winner in users && loser in users && winner != loser
      modifies store`players, users[winner], users[loser]
      ensures Valid() && users == old(users)
      ensures State() == M.Separate(old(State()), winner, loser, now)
    {
      hide M.CooledDown, M.SaveAt, Player.View, Store.Contents;
      CooledDown(winner, now);
      CooledDown(loser, now);
      SaveAt(winner);
      SaveAt(loser);
    }

    method Aftermath(out0: seq<Msg>, winner: Key, loser: Key, now: Time, round: Option<nat>) returns (out: seq<Msg>)
      requires Valid() && winner in users && loser in users && winner != loser
      modifies `rng, store, users[winner], users[loser]
      ensures Valid() && users == old(users)
      ensures M.TS(State(), out) == M.Aftermath(M.TS(old(State()), out0), winner, loser, now, round)
    {
      hide M.Blows, M.Theft, M.TheftSlot, M.Separate, DisplayName, Player.View, Store.Contents;
      Blows(winner, loser);
      var won, lost := DisplayName(users[winner].View()), DisplayName(users[loser].View());
      var stolen := Theft(winner, loser);
      Separate(winner, loser, now);
      out := out0 + [Msg.Collision(round, won, lost, stolen)];
    }

    /** Each side's power and luck. */
    method Upset(a: Key, b: Key) returns (upset: bool)
      requires a in users && b in users
      modifies `rng
      ensures State() == M.Skip(M.Skip(old(State()))) && upset == M.Upset(old(State()), a, b)
    {
      hide M.CollisionPower, Draw, Rest, Player.View, Store.Contents;
      var theirs := Intn(5);
      var ours := Intn(5);
      upset := M.CollisionPower(users[b].View()) + theirs > M.CollisionPower(users[a].View()) + ours;
    }

    method Bout(out0: seq<Msg>, a: Key, b: Key, now: Time) returns (out: seq<Msg>)
      requires Valid() && a in users && b in users && a != b
      modifies `rng, store, users[a], users[b]
      ensures Valid() && users == old(users)
      ensures M.TS(State(), out) == M.Bout(M.TS(old(State()), out0), a, b, now)
    {
      hide M.RecordBout, M.Round, M.Upset, M.Aftermath, M.Skip, Player.View, Store.Contents;
      var round := RecordBout(a, b);
      var upset := Upset(a, b);
      if upset {
        out := Aftermath(out0, b, a, now, round);
      } else {
        out := Aftermath(out0, a, b, now, round);
      }
    }

    /** collisionLocked */
    method Collide(out0: seq<Msg>, now: Time) returns (out: seq<Msg>, ghost order: seq<Key>, ghost poolOrder: seq<Key>)
      requires Valid()
      modifies `rng, store, users.Values
      ensures Valid() && users == old(users) && Enumerates(order, users.Keys) && Enumerates(poolOrder, users.Keys)
      ensures M.TS(State(), out) == M.CollisionStep(M.TS(old(State()), out0), now, order, poolOrder)
    {
      hide M.CollisionDue, M.Meet, Draw, Rest, Player.View, Views, Store.Contents;
      out := out0;
      var due;
      due, order := DueForCollision(now);
      poolOrder := order;
      if due == [] { return; }
      var d := Intn(|due|);
      var a := due[d];
      assert a in due;
      out, poolOrder := Meet(out, a, now);
    }

    method Meet(out0: seq<Msg>, a: Key, now: Time) returns (out: seq<Msg>, ghost order: seq<Key>)
      requires Valid() && a in users
      modifies `rng, store, users.Values
      ensures Valid() && users == old(users) && Enumerates(order, users.Keys)
      ensures M.TS(State(), out) == M.Meet(M.TS(old(State()), out0), a, now, order)
    {
      hide M.Pool, M.Opponent, M.Bout, Player.View, Views, Store.Contents;
      out := out0;
      var pool;
      pool, order := Pool(a);
      if pool != [] {
        var b := Opponent(pool, a);
        out := Bout(out, a, b, now);
      }
    }

    // ---- Tick ----

    method WorldSteps(out0: seq<Msg>, now: Time)
      returns (out: seq<Msg>, ghost raidOrder: seq<Key>, ghost eventOrder: seq<Key>)
      requires Valid()
      modifies `world, `pending, `rng, store, users.Values
      ensures Valid() && users == old(users) && Enumerates(raidOrder, users.Keys) && Enumerates(eventOrder, users.Keys)
      ensures var before := M.TS(old(State()), out0);
              forall ord: M.Orders | ord.raid == raidOrder && ord.event == eventOrder ::
                M.TS(State(), out) == M.WorldSteps(before, now, ord)
    {
      hide M.SwapTick, M.ResolveContract, M.ResolveRaid, M.DropExpiry, M.CityEventTick, Player.View, Views,
        Store.Contents;
      out := SwapTick(out0, now);
      out := ResolveContract(out, now);
      out, raidOrder := ResolveRaid(out, now);
      out := DropExpiry(out, now);
      out, eventOrder := CityEventTick(out, now);
    }

    /** The tick before its messages are remembered. What was queued since the last tick follows the world's news. */
    method TickSteps(now: Time, champion: Faction) returns (out: seq<Msg>, ghost orders: M.Orders)
      requires Valid()
      modifies this, store, users.Values
      ensures Valid() && fresh(users.Values - old(users.Values))
      ensures M.Walks(orders, old(users.Keys))
      ensures M.TS(State(), out) == M.TickSteps(old(State()), now, orders, champion)
    {
      hide M.WorldSteps, M.RunnerSteps, M.CollisionStep, Player.View, Views, Store.Contents;
      var carried := pending;
      pending := [];
      ghost var raid, event, runners, due, pool;
      out, raid, event := WorldSteps([], now);
      out, runners := RunnerSteps(out + carried, now, champion);
      out, due, pool := Collide(out, now);
      orders := M.Orders(raid, event, runners, due, pool);
      out := TakePending(out);
    }

    method Tick(now: Time, champion: Faction) returns (out: seq<Msg>, ghost orders: M.Orders)
      requires Valid()
      modifies this, store, users.Values
      ensures Valid() && fresh(users.Values - old(users.Values))
      ensures M.Walks(orders, old(users.Keys))
      ensures State() == M.Tick(old(State()), now, orders, champion)
      ensures out == M.TickSteps(old(State()), now, orders, champion).out
    {
      hide M.TickSteps, M.Remember, Player.View, Views, Store.Contents;
      out, orders := TickSteps(now, champion);
      Remember(out);
    }

    // ---- Read-only views ----

    /** The runner at `k` as of now, on a copy. */
    method Sight(k: Key, now: Time) returns (copy: Player)
      requires k in users
      ensures fresh(copy) && copy.View() == Progression.Advance(Views()[k], now, rules)
    {
      hide Progression.Advance, Player.View;
      copy := new Player(users[k].View());
      var _ := copy.Advance(now, rules);
    }

    /** Everybody as of now, on copies: looking writes nothing and consumes no announcement. */
    method Snapshot(now: Time) returns (views: seq<Player>, w: World, ghost order: seq<Key>)
      requires Valid()
      ensures w == world && Enumerates(order, users.Keys) && |views| == |order|
      ensures forall i :: 0 <= i < |views| ==>
        fresh(views[i]) && views[i].View() == Progression.Advance(Views()[order[i]], now, rules)
    {
      hide Progression.Advance, Player.View;
      var keys := Walk();
      order, views, w := keys, [], world;
      for i := 0 to |keys|
        invariant |views| == i
        invariant forall j :: 0 <= j < i ==>
          fresh(views[j]) && views[j].View() == Progression.Advance(Views()[keys[j]], now, rules)
      {
        var copy := Sight(keys[i], now);
        views := views + [copy];
      }
    }

    /** The newest events first, as many as asked for and there are. */
    method RecentEvents(limit: int) returns (events: seq<Msg>)
      ensures |events| == Min(if limit < 1 then 10 else limit, |world.recent|)
      ensures forall i :: 0 <= i < |events| ==> events[i] == world.recent[|world.recent| - 1 - i]
    {
      events := [];
      var n := Min(if limit < 1 then 10 else limit, |world.recent|);
      for i := 0 to n
        invariant |events| == i
        invariant forall j :: 0 <= j < i ==> events[j] == world.recent[|world.recent| - 1 - j]
      {
        events := events + [world.recent[|world.recent| - 1 - i]];
      }
    }
  }
}
