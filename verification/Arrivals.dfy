/** Who a join finds, whom it may absorb, and what the runner is afterwards. */
module Arrivals {
  import opened Grid
  import opened Progression
  import opened StoreRows
  import opened Machine
  import opened Invariants
  import opened Paths
  import Accounts
  import Operations
  import Restarts

  /** The runner is linked under the nick, in any letter case. */
  predicate LinkedAs(p: Runner, nick: Name) { p.connected && EqualFold(p.nick, nick) }

  // ---- Whom a join absorbs ----

  /** A guest that neither sits linked under the nick nor bears the account's name is not found. */
  lemma StrangersUnfound(s: State, nick: Name, account: Name, order: seq<Key>, k: Key)
    requires k in s.users && !LinkedAs(s.users[k], nick) && k != GuestKey(account)
    ensures JoinFrom(s, nick, Some(account), order) != Some(k)
  {
  }

  /**
   A join leaves every other guest's record and row alone: it can only absorb one that is linked under the nick, or
   the one of the account's own name.
   */
  lemma StrangersStay(s: State, nick: Name, account: Name, now: Time, order: seq<Key>, k: Key)
    requires Inv(s) && k.Guest? && k in s.users && !LinkedAs(s.users[k], nick) && k != GuestKey(account)
    ensures var t := Join(s, nick, Some(account), now, order);
            && k in t.users && t.users[k] == s.users[k]
            && k in t.repo.players && t.repo.players[k] == s.repo.players[k]
  {
    hide Join, JoinFrom, Core, Synced, WorldSaved;
    StrangersUnfound(s, nick, account, order, k);
    JoinLeaves(s, nick, Some(account), now, order, k);
    Operations.JoinKeeps(s, nick, Some(account), now, order);
    Restarts.RowSound(s, k);
    Restarts.RowSound(Join(s, nick, Some(account), now, order), k);
  }

  /** Whoever is neither the one joining nor absorbed by it keeps its record. */
  lemma JoinLeaves(s: State, nick: Name, account: Option<Name>, now: Time, order: seq<Key>, k: Key)
    requires Kept(s, {}) && k in s.users && k != JoinKey(nick, account) && JoinFrom(s, nick, account, order) != Some(k)
    ensures var t := Join(s, nick, account, now, order);
            k in t.users && t.users[k] == s.users[k]
  {
    hide Migrate, Enter, Migratable;
    var j, g := JoinKey(nick, account), JoinFrom(s, nick, account, order);
    if g.Some? {
      Accounts.MigrateLeavesOthers(s, g.value, account.value, nick, now, k);
      EnterLeaves(Migrate(s, g.value, account.value, nick, now), j, nick, account, now, k);
    } else {
      EnterLeaves(s, j, nick, account, now, k);
    }
  }

  lemma EnterLeaves(s: State, j: Key, nick: Name, account: Option<Name>, now: Time, k: Key)
    requires k in s.users && k != j
    ensures var t := Enter(s, j, nick, account, now);
            k in t.users && t.users[k] == s.users[k]
  {
    hide Advance, LevelMsgs, Queue, Stagger, Stored, NewRunner;
  }

  /** The guest at `g` is the user's: the first runner linked under the nick, or, with nobody linked, the namesake. */
  predicate OwnGuest(users: map<Key, Runner>, nick: Name, account: Name, order: seq<Key>, g: Key) {
    var live := FirstConnected(users, nick, order);
    && g in users && users[g].guest
    && if live.Some? then live.value == g else g == GuestKey(nick) && nick.fold == account.fold
  }

  /** A join takes a guest off the books exactly if it is the user's own, and then it becomes the account's runner. */
  lemma AbsorbsExactly(s: State, nick: Name, account: Name, now: Time, order: seq<Key>, g: Key)
    requires Inv(s) && g in s.users
    ensures g !in Join(s, nick, Some(account), now, order).users <==> OwnGuest(s.users, nick, account, order, g)
  {
    hide Join, Core, Synced, WorldSaved, FirstConnected;
    JoinKnows(s, nick, Some(account), now, order);
    if OwnGuest(s.users, nick, account, order, g) {
      assert JoinFrom(s, nick, Some(account), order) == Some(g);
    } else {
      assert JoinFrom(s, nick, Some(account), order) != Some(g);
    }
  }

  // ---- Who the runner is afterwards ----

  /** The runner is linked under these names, its clocks start now, and its row says the same. */
  ghost predicate LinkedNow(t: State, k: Key, nick: Name, account: Option<Name>, now: Time) {
    && k in t.users && k in t.repo.players && t.repo.players[k] == Stored(t.users[k])
    && var p := t.users[k];
       && p.connected && p.nick == nick && p.account == account && (p.guest <==> account.None?)
       && p.lastSeenAt == p.lastProgressAt == p.lastHeatAt == now
  }

  lemma EnterLinks(s: State, k: Key, nick: Name, account: Option<Name>, now: Time)
    ensures LinkedNow(Enter(s, k, nick, account, now), k, nick, account, now)
  {
    hide Advance, LevelMsgs, Queue, Stagger, Stored, NewRunner;
  }

  /** Joining links the runner of the account, or of the nick, under the nick it joins with. */
  lemma JoinLinks(s: State, nick: Name, account: Option<Name>, now: Time, order: seq<Key>)
    ensures LinkedNow(Join(s, nick, account, now, order), JoinKey(nick, account), nick, account, now)
  {
    hide Enter, Migrate, Migratable;
    var k, g := JoinKey(nick, account), JoinFrom(s, nick, account, order);
    EnterLinks(if g.Some? then Migrate(s, g.value, account.value, nick, now) else s, k, nick, account, now);
  }

  /** With nobody else linked under the nick, it then names the runner whatever the walk. */
  lemma OnlyOneFound(users: map<Key, Runner>, k: Key, nick: Name, order: seq<Key>)
    requires k in users && LinkedAs(users[k], nick) && Enumerates(order, users.Keys)
    requires forall j :: j in users && j != k ==> !LinkedAs(users[j], nick)
    ensures Find(users, None, nick, order) == Some(k)
  {
    hide FirstConnected;
    assert k in order;
  }

  /**
   A known identity is its own runner whatever the nick. Otherwise a nick is whoever is linked under it, and with nobody
   linked, and no identity given, the guest of that nick.
   */
  lemma FindsWhom(users: map<Key, Runner>, identity: Option<Key>, nick: Name, order: seq<Key>)
    requires Enumerates(order, users.Keys)
    ensures identity.Some? && identity.value in users ==> Find(users, identity, nick, order) == identity
    ensures identity.None? || identity.value !in users ==>
              var hit := Find(users, identity, nick, order);
              if exists k :: k in users && LinkedAs(users[k], nick) then hit.Some? && LinkedAs(users[hit.value], nick)
              else if identity.None? && GuestKey(nick) in users && users[GuestKey(nick)].guest then
                hit == Some(GuestKey(nick))
              else hit.None?
  {
    hide FirstConnected;
  }

  /** A newcomer starts at level 1 with an empty meter, no gear and every timer a whole interval off. */
  lemma NewcomersStartFresh(s: State, nick: Name, account: Option<Name>, now: Time, order: seq<Key>)
    requires JoinKey(nick, account) !in s.users && JoinFrom(s, nick, account, order).None?
    ensures var p := Join(s, nick, account, now, order).users[JoinKey(nick, account)];
            && p.identity == JoinKey(nick, account)
            && p.level == 1 && p.progress == 0 && p.heat == 0 && p.equipment == map[] && p.alias.None?
            && p.faction == Unaffiliated && p.stance == Normal && p.district == NeonMarket
            && p.scars == [] && p.rivals == map[] && p.streakSince == now && p.streakDays == 0
            && p.nextEncounterAt == now + s.rules.encounterInterval
            && p.nextCollisionAt == now + s.rules.collisionInterval
            && p.nextDistrictAt == now + s.rules.districtInterval
  {
    hide Migratable, Stored;
  }

  /** A timer that ran out while away comes back later within its interval; any other stands. */
  predicate Pushed(at: Time, later: Time, interval: int, now: Time) {
    if 0 != at <= now then now + interval / 4 <= later <= now + interval else later == at
  }

  lemma StaggerPushes(at: Time, interval: int, now: Time, rng: Rng)
    requires interval > 0
    ensures Pushed(at, Stagger(at, interval, now, rng).0, interval, now)
  {
    hide Draw;
    assert interval / 4 + interval * 3 / 4 <= interval;
  }

  /**
   Whoever comes back finds standing, gear and names as left. Timers overdue are pushed out, and the streak goes on
   exactly if it was running and the absence was no longer than an hour.
   */
  lemma ReturnsAsLeft(s: State, nick: Name, account: Option<Name>, now: Time, order: seq<Key>)
    requires JoinKey(nick, account) in s.users && JoinFrom(s, nick, account, order).None?
    requires !s.users[JoinKey(nick, account)].connected
    ensures var k := JoinKey(nick, account);
            var p, q := s.users[k], Join(s, nick, account, now, order).users[k];
            && MeterOf(q) == MeterOf(p) && q.heat == p.heat && q.alias == p.alias && q.faction == p.faction
            && q.stance == p.stance && q.scars == p.scars && q.rivals == p.rivals && q.district == p.district
            && Pushed(p.nextEncounterAt, q.nextEncounterAt, s.rules.encounterInterval, now)
            && Pushed(p.nextDistrictAt, q.nextDistrictAt, s.rules.districtInterval, now)
            && Pushed(p.nextCollisionAt, q.nextCollisionAt, s.rules.collisionInterval, now)
            && (if p.streakSince != 0 && now - p.lastSeenAt <= HOUR
                then q.streakSince == p.streakSince && q.streakDays == p.streakDays
                else q.streakSince == now && q.streakDays == 0)
  {
    hide Migratable, Stored, Stagger, Pushed;
    var p := s.users[JoinKey(nick, account)];
    var (encounter, rng1) := Stagger(p.nextEncounterAt, s.rules.encounterInterval, now, s.rng);
    var (district, rng2) := Stagger(p.nextDistrictAt, s.rules.districtInterval, now, rng1);
    StaggerPushes(p.nextEncounterAt, s.rules.encounterInterval, now, s.rng);
    StaggerPushes(p.nextDistrictAt, s.rules.districtInterval, now, rng1);
    StaggerPushes(p.nextCollisionAt, s.rules.collisionInterval, now, rng2);
  }

  // ---- Switching accounts ----

  /** Identifying as another account takes the first account's runner off the Grid. */
  lemma BindSwitches(s: State, nick: Name, to: Name, now: Time, order: seq<Key>, joinOrder: seq<Key>, k: Key)
    requires Inv(s) && Enumerates(order, s.users.Keys) && to.fold != "" && k != AccountKey(to)
    requires k.Acct? && k in s.users && LinkedAs(s.users[k], nick)
    requires forall j :: j in s.users && LinkedAs(s.users[j], nick) ==> j == k
    ensures var t := Bind(s, nick, to, now, order, joinOrder);
            k in t.users && !t.users[k].connected && LinkedNow(t, AccountKey(to), nick, Some(to), now)
  {
    hide Join, SwitchOff, LinkedNow, Core, Synced, WorldSaved, FirstConnected, JoinFrom;
    assert k in order;
    assert SwitchedFrom(s, nick, to, order) == Some(k) by { NotAGuest(s, k); }
    var s1 := SwitchOff(s, k, now);
    SwitchedOff(s, k, now);
    Operations.SwitchOffKeeps(s, k, now);
    if JoinFrom(s1, nick, Some(to), joinOrder) == Some(k) { MigratableIs(s1, nick, Some(to), joinOrder); }
    JoinLeaves(s1, nick, Some(to), now, joinOrder, k);
    JoinLinks(s1, nick, Some(to), now, joinOrder);
    LinkedStill(Join(s1, nick, Some(to), now, joinOrder), Bind(s, nick, to, now, order, joinOrder), AccountKey(to),
                nick, Some(to), now);
  }

  lemma NotAGuest(s: State, k: Key)
    requires Kept(s, {}) && k in s.users && k.Acct?
    ensures !s.users[k].guest
  {
    assert SoundRunner(k, s.users[k], s.repo.claimed);
  }

  lemma SwitchedOff(s: State, k: Key, now: Time)
    requires k in s.users
    ensures k in SwitchOff(s, k, now).users && !SwitchOff(s, k, now).users[k].connected
  {
    hide Advance, LevelMsgs, Queue, Stored, DisplayName;
  }

  lemma LinkedStill(t: State, u: State, k: Key, nick: Name, account: Option<Name>, now: Time)
    requires LinkedNow(t, k, nick, account, now) && u.users == t.users && u.repo.players == t.repo.players
    ensures LinkedNow(u, k, nick, account, now)
  {
  }
}
