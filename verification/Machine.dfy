/**
 The engine as a state machine: one function per public operation. Class `Engine` is proved to
 compute these; the invariants are proved about these.

 A map is walked in an arbitrary order, given as an `order` argument; a random draw is taken from the
 head of `rng`.
 */
module Machine {
  import opened Grid
  import opened Progression
  import opened StoreRows
  import opened Rivals
  import Gear

  const MAX_PENDING: nat := 50
  const MAX_RECENT: nat := 20

  datatype State = State(
    rules: Tuning,
    users: map<Key, Runner>,
    repo: Repo,
    world: World,
    pending: seq<Msg>,
    missing: map<Key, Time>,
    rng: Rng)

  // ---- Building blocks ----

  function LastOf<T>(s: seq<T>, n: nat): (t: seq<T>)
    ensures |t| == Min(|s|, n)
  {
    if |s| > n then s[|s| - n..] else s
  }

  function Queue(pending: seq<Msg>, messages: seq<Msg>): seq<Msg> {
    LastOf(pending + messages, MAX_PENDING)
  }

  function SetAt(s: State, k: Key, p: Runner): State {
    s.(users := s.users[k := p])
  }

  /** advanceLocked: advance the runner and queue the level-up announcement. */
  function AdvanceAt(s: State, k: Key, now: Time): State
    requires k in s.users
  {
    var p := s.users[k];
    var q := Advance(p, now, s.rules);
    s.(users := s.users[k := q], pending := Queue(s.pending, LevelMsgs(p, q)))
  }

  lemma AdvancedAt(s: State, k: Key, now: Time)
    requires k in s.users
    ensures AdvanceAt(s, k, now).users == s.users[k := Advance(s.users[k], now, s.rules)]
  {
  }

  function SaveAt(s: State, k: Key): State
    requires k in s.users
  {
    s.(repo := s.repo.(players := s.repo.players[k := Stored(s.users[k])]))
  }

  function SaveWorld(s: State): State {
    s.(repo := s.repo.(world := StoredWorld(s.world)))
  }

  function Remember(s: State, messages: seq<Msg>): State {
    if messages == [] then s
    else SaveWorld(s.(world := s.world.(recent := LastOf(s.world.recent + messages, MAX_RECENT))))
  }

  function Skip(s: State): State { s.(rng := Rest(s.rng)) }

  /** The first connected runner under a nick that a walk of the map meets. */
  function FirstConnected(users: map<Key, Runner>, nick: Name, order: seq<Key>): (hit: Option<Key>)
    ensures hit.Some? ==> hit.value in users && users[hit.value].connected && EqualFold(users[hit.value].nick, nick)
    ensures hit.None? ==>
              forall k :: k in order && k in users ==> !(users[k].connected && EqualFold(users[k].nick, nick))
  {
    if order == [] then None
    else if order[0] in users && users[order[0]].connected && EqualFold(users[order[0]].nick, nick) then Some(order[0])
    else FirstConnected(users, nick, order[1..])
  }

  /** findLocked: by identity, then by live nick, then by guest key when no identity is given. */
  function Find(users: map<Key, Runner>, identity: Option<Key>, nick: Name, order: seq<Key>): (hit: Option<Key>)
    ensures hit.Some? ==> hit.value in users
  {
    if identity.Some? && identity.value in users then identity
    else
      var live := FirstConnected(users, nick, order);
      if live.Some? then live
      else if identity.None? && GuestKey(nick) in users && users[GuestKey(nick)].guest then Some(GuestKey(nick))
      else None
  }

  // ---- Contracts: drops and rekeys ----

  /** The disconnect of `k` fails the contract. */
  predicate Breaks(c: Option<Contract>, k: Key) {
    c.Some? && !c.value.failed && k in c.value.participants
  }

  function MarkFailed(c: Option<Contract>, k: Key, name: Name): Option<Contract> {
    if Breaks(c, k) then Some(c.value.(failed := true, droppedBy := Some(name))) else c
  }

  function MarkAt(s: State, k: Key): State
    requires k in s.users
  {
    s.(world := s.world.(contract := MarkFailed(s.world.contract, k, DisplayName(s.users[k]))))
  }

  function Replace(keys: seq<Key>, old_: Key, new_: Key): (r: seq<Key>)
    ensures |r| == |keys|
    ensures forall i :: 0 <= i < |r| ==> r[i] == if keys[i] == old_ then new_ else keys[i]
  {
    seq(|keys|, i requires 0 <= i < |keys| => if keys[i] == old_ then new_ else keys[i])
  }

  function Rekey(c: Option<Contract>, old_: Key, new_: Key): Option<Contract> {
    if c.None? || old_ == new_ then c
    else Some(c.value.(participants := Replace(c.value.participants, old_, new_)))
  }

  predicate Rekeys(c: Option<Contract>, old_: Key, new_: Key) {
    c.Some? && old_ != new_ && old_ in c.value.participants
  }

  // ---- Join and Bind ----

  function NewRunner(k: Key, nick: Name, account: Option<Name>, now: Time, r: Rules): Runner {
    Runner(k, account, nick, None, account.None?, 1, 0, now, false, now,
           now + r.encounterInterval, now + r.collisionInterval, now + r.districtInterval, NeonMarket, 0, now,
           Unaffiliated, 0, Normal, map[], [], map[], now, 0)
  }

  function Stagger(at: Time, interval: int, now: Time, rng: Rng): (Time, Rng)
    requires interval > 0
  {
    if at == 0 || at > now then (at, rng)
    else (now + interval / 4 + Draw(rng, interval * 3 / 4 + 1), Rest(rng))
  }

  const STREAK_GRACE: int := HOUR

  /** A runner coming back: overdue timers are pushed out, and a stale streak starts over. */
  function Resume(s: State, k: Key, now: Time): State
    requires k in s.users
  {
    var p := s.users[k];
    var (encounter, rng1) := Stagger(p.nextEncounterAt, s.rules.encounterInterval, now, s.rng);
    var (district, rng2) := Stagger(p.nextDistrictAt, s.rules.districtInterval, now, rng1);
    var (collision, rng3) := Stagger(p.nextCollisionAt, s.rules.collisionInterval, now, rng2);
    var broken := p.streakSince == 0 || now - p.lastSeenAt > STREAK_GRACE;
    var q := p.(nextEncounterAt := encounter, nextDistrictAt := district, nextCollisionAt := collision,
                streakSince := if broken then now else p.streakSince,
                streakDays := if broken then 0 else p.streakDays);
    SetAt(s, k, q).(rng := rng3)
  }

  /** The guest runner that provably belongs to the user now identified as the account. */
  function Migratable(users: map<Key, Runner>, nick: Name, account: Name, order: seq<Key>): (hit: Option<Key>)
    ensures hit.Some? ==> hit.value in users && users[hit.value].guest
  {
    var live := FirstConnected(users, nick, order);
    if live.Some? then (if users[live.value].guest then live else None)
    else if GuestKey(nick) in users && users[GuestKey(nick)].guest && nick.fold == account.fold
      then Some(GuestKey(nick))
    else None
  }

  /** The guest at `g` is advanced, saved, and merged into the account's runner. */
  function Migrate(s: State, g: Key, account: Name, nick: Name, now: Time): State
    requires g in s.users
  {
    var id := AccountKey(account);
    var s1 := SaveAt(AdvanceAt(s, g, now), g);
    var (row, players) := MigrateGuest(s1.repo.players, g, id, account, nick).value;
    s1.(users := (s1.users - {g})[id := row], repo := s1.repo.(players := players),
        world := s1.world.(contract := Rekey(s1.world.contract, g, id)))
  }

  function Linked(p: Runner, nick: Name, account: Option<Name>, now: Time): Runner {
    p.(nick := nick, account := account, guest := account.None?, connected := true,
       lastSeenAt := now, lastProgressAt := now, lastHeatAt := now)
  }

  /** The runner at `k` is found or made, and caught up. */
  function Arrive(s: State, k: Key, nick: Name, account: Option<Name>, now: Time): (t: State)
    ensures k in t.users
  {
    if k !in s.users then SetAt(s, k, NewRunner(k, nick, account, now, s.rules))
    else if s.users[k].connected then AdvanceAt(s, k, now)
    else Resume(s, k, now)
  }

  /** The runner at `k` is on the Grid, linked and saved. */
  function Enter(s: State, k: Key, nick: Name, account: Option<Name>, now: Time): State {
    var s1 := Arrive(s, k, nick, account, now);
    SaveAt(SetAt(s1, k, Linked(s1.users[k], nick, account, now)), k)
  }

  function JoinKey(nick: Name, account: Option<Name>): Key {
    if account.None? then GuestKey(nick) else AccountKey(account.value)
  }

  function JoinFrom(s: State, nick: Name, account: Option<Name>, order: seq<Key>): (hit: Option<Key>)
    ensures hit.Some? ==> account.Some? && hit.value in s.users && s.users[hit.value].guest
  {
    if account.None? then None else Migratable(s.users, nick, account.value, order)
  }

  function Join(s: State, nick: Name, account: Option<Name>, now: Time, order: seq<Key>): State {
    var k := JoinKey(nick, account);
    var g := JoinFrom(s, nick, account, order);
    if g.None? then Enter(s, k, nick, account, now)
    else
      var t := Enter(Migrate(s, g.value, account.value, nick, now), k, nick, account, now);
      if Rekeys(s.world.contract, g.value, k) then SaveWorld(t) else t
  }

  /** The runner another account leaves behind when its user switches accounts. */
  function SwitchedFrom(s: State, nick: Name, account: Name, order: seq<Key>): (hit: Option<Key>)
    ensures hit.Some? ==> hit.value in s.users && s.users[hit.value].connected && hit.value != AccountKey(account)
  {
    var live := FirstConnected(s.users, nick, order);
    if live.Some? && !s.users[live.value].guest && live.value != AccountKey(account) then live else None
  }

  function SwitchOff(s: State, k: Key, now: Time): State
    requires k in s.users
  {
    var s1 := AdvanceAt(s, k, now);
    SaveAt(MarkAt(SetAt(s1, k, s1.users[k].(connected := false, lastSeenAt := now)), k), k)
  }

  /** The state in which Bind joins: the other account's runner, if any, is switched off. */
  function Unbound(s: State, nick: Name, account: Name, now: Time, order: seq<Key>): State {
    var old_ := SwitchedFrom(s, nick, account, order);
    if old_.Some? then SwitchOff(s, old_.value, now) else s
  }

  function Bind(s: State, nick: Name, account: Name, now: Time, order: seq<Key>, joinOrder: seq<Key>): State {
    if account.fold == "" then s
    else
      var old_ := SwitchedFrom(s, nick, account, order);
      var t := Join(Unbound(s, nick, account, now, order), nick, Some(account), now, joinOrder);
      if old_.Some? && Breaks(s.world.contract, old_.value) then SaveWorld(t) else t
  }

  // ---- Commands ----

  /** Advance a runner, change it, save it. */
  function Touch(s: State, k: Key, now: Time, change: Runner -> Runner): State
    requires k in s.users
  {
    var s1 := AdvanceAt(s, k, now);
    SaveAt(SetAt(s1, k, change(s1.users[k])), k)
  }

  predicate AliasTaken(users: map<Key, Runner>, k: Key, alias: Name) {
    exists j :: j in users && j != k &&
      ((users[j].alias.Some? && EqualFold(users[j].alias.value, alias)) || EqualFold(users[j].nick, alias))
  }

  /** The second result tells whether the command was accepted. */
  function SetAlias(s: State, identity: Option<Key>, nick: Name, alias: Option<Name>, now: Time, order: seq<Key>)
    : (State, bool)
  {
    if alias.Some? && !ValidAlias(alias.value) then (s, false)
    else
      var hit := Find(s.users, identity, nick, order);
      if hit.None? || (alias.Some? && AliasTaken(s.users, hit.value, alias.value)) then (s, false)
      else (Touch(s, hit.value, now, (p: Runner) => p.(alias := alias, lastSeenAt := now)), true)
  }

  function SetStance(s: State, identity: Option<Key>, nick: Name, stance: Stance, now: Time, order: seq<Key>)
    : (State, bool)
  {
    var hit := Find(s.users, identity, nick, order);
    if hit.None? then (s, false)
    else (Touch(s, hit.value, now, (p: Runner) => p.(stance := stance, lastSeenAt := now)), true)
  }

  predicate SwapOpen(w: World, now: Time) {
    w.swapStartedAt != 0 && w.swapUntil != 0 && now < w.swapUntil
  }

  /** Whether the runner may take the faction now. */
  predicate MaySwap(p: Runner, w: World, faction: Faction, now: Time) {
    && p.faction != faction
    && (p.faction != Unaffiliated ==> SwapOpen(w, now) && p.lastFactionSwapAt < w.swapStartedAt)
  }

  function SetFaction(s: State, identity: Option<Key>, nick: Name, faction: Faction, now: Time, order: seq<Key>)
    : (State, bool)
  {
    var hit := Find(s.users, identity, nick, order);
    if faction == Unaffiliated || hit.None? || !MaySwap(s.users[hit.value], s.world, faction, now) then (s, false)
    else
      var open := SwapOpen(s.world, now);
      (Touch(s, hit.value, now, (p: Runner) =>
         p.(faction := faction, lastFactionSwapAt := if open then now else p.lastFactionSwapAt, lastSeenAt := now)),
       true)
  }

  datatype Kind = Chat | Action | NickChange | Part | Quit | Kick | Netsplit

  function PenaltySeconds(level: Level, kind: Kind, length: int, r: Rules): int {
    var scale := level - 1;
    match kind
    case Chat => r.speechBase + scale * r.speechPerLevel + Max(0, length) * r.speechPerCharacter
    case Action => r.actionBase + scale * r.actionPerLevel + Max(0, length) * r.actionPerCharacter
    case NickChange => r.nickPenalty + scale * r.speechPerLevel
    case Part => r.partPenalty + scale * r.speechPerLevel
    case Quit => r.quitPenalty + scale * r.speechPerLevel
    case Kick => r.kickPenalty + scale * r.speechPerLevel
    case Netsplit => 0
  }

  /** Chat and actions are free while the pirate frequency is open. */
  predicate Waived(w: World, kind: Kind, now: Time) {
    (kind == Chat || kind == Action) && now < w.pirateUntil
  }

  /** What saying something does to a runner. */
  function Spoken(p: Runner, w: World, kind: Kind, length: int, now: Time, r: Rules): Runner {
    p.(lastSeenAt := now,
       progress := p.progress - if Waived(w, kind, now) then 0 else PenaltySeconds(p.level, kind, length, r))
  }

  function Activity(s: State, identity: Option<Key>, nick: Name, channel: Name, kind: Kind, length: int, now: Time,
                    order: seq<Key>): State
  {
    var hit := Find(s.users, identity, nick, order);
    if !EqualFold(channel, s.rules.gameChannel) || hit.None? then s
    else
      var rules, world := s.rules, s.world;
      Touch(s, hit.value, now, (p: Runner) => Spoken(p, world, kind, length, now, rules))
  }

  function Status(s: State, identity: Option<Key>, nick: Name, now: Time, order: seq<Key>): State {
    var hit := Find(s.users, identity, nick, order);
    if hit.None? then s else SaveAt(AdvanceAt(s, hit.value, now), hit.value)
  }

  // ---- Leaving and renaming ----

  function DisconnectHeat(kind: Kind): int {
    match kind
    case Kick => 15
    case Part => 5
    case Quit => 5
    case _ => 0
  }

  function Unlinked(p: Runner, kind: Kind, now: Time, r: Rules): Runner {
    p.(progress := p.progress - PenaltySeconds(p.level, kind, 0, r),
       heat := ClampHeat(p.heat + DisconnectHeat(kind)),
       connected := false, lastSeenAt := now, lastProgressAt := now, lastHeatAt := now,
       streakSince := if kind == Netsplit then p.streakSince else 0,
       streakDays := if kind == Netsplit then p.streakDays else 0)
  }

  function DisconnectAt(s: State, k: Key, kind: Kind, now: Time): State
    requires k in s.users
  {
    var s1 := AdvanceAt(s, k, now);
    var s2 := SetAt(s1, k, Unlinked(s1.users[k], kind, now, s.rules));
    if kind == Netsplit then SaveAt(s2, k)
    else
      var s3 := SaveAt(MarkAt(s2, k), k);
      if Breaks(s.world.contract, k) then SaveWorld(s3) else s3
  }

  function Disconnect(s: State, nick: Name, kind: Kind, now: Time, order: seq<Key>): State {
    var hit := Find(s.users, None, nick, order);
    if hit.None? || !s.users[hit.value].connected then s else DisconnectAt(s, hit.value, kind, now)
  }

  function PauseAt(s: State, k: Key, now: Time): State {
    if k !in s.users || !s.users[k].connected then s
    else
      var s1 := AdvanceAt(s, k, now);
      SaveAt(SetAt(s1, k, s1.users[k].(connected := false, lastProgressAt := now, lastHeatAt := now)), k)
  }

  function PauseAll(s: State, order: seq<Key>, now: Time): State {
    if order == [] then s
    else PauseAt(PauseAll(s, order[..|order| - 1], now), order[|order| - 1], now)
  }

  function DisconnectAll(s: State, now: Time, order: seq<Key>): State {
    PauseAll(s, order, now).(missing := map[])
  }

  /** The runner is on the Grid but not on the channel's roster. */
  predicate Absent(users: map<Key, Runner>, k: Key, present: set<Name>) {
    k in users && users[k].connected && users[k].nick !in present
  }

  function DropAt(s: State, k: Key, now: Time): State
    requires k in s.users
  {
    var s1 := AdvanceAt(s, k, now);
    var q := s1.users[k].(connected := false, lastSeenAt := now, streakSince := 0, streakDays := 0);
    SaveAt(MarkAt(SetAt(s1, k, q), k), k)
  }

  function ReconcileAt(s: State, k: Key, present: set<Name>, grace: int, now: Time): State {
    if k !in s.users then s
    else if !Absent(s.users, k, present) then s.(missing := s.missing - {k})
    else if k !in s.missing then s.(missing := s.missing[k := now])
    else if now - s.missing[k] < grace then s
    else DropAt(s.(missing := s.missing - {k}), k, now)
  }

  function ReconcileAll(s: State, order: seq<Key>, present: set<Name>, grace: int, now: Time): State {
    if order == [] then s
    else
      ReconcileAt(ReconcileAll(s, order[..|order| - 1], present, grace, now), order[|order| - 1], present, grace, now)
  }

  /** Nobody offline or gone is being missed. */
  function Watched(missing: map<Key, Time>, users: map<Key, Runner>): map<Key, Time> {
    map k | k in missing && k in users && users[k].connected :: missing[k]
  }

  function Reconcile(s: State, present: set<Name>, grace: int, now: Time, order: seq<Key>): State {
    var s1 := ReconcileAll(s, order, present, grace, now);
    var s2 := s1.(missing := Watched(s1.missing, s1.users));
    if s1.world.contract != s.world.contract then SaveWorld(s2) else s2
  }

  /** A guest follows its nick to a new key unless another guest's record owns it. */
  predicate Moves(s: State, k: Key, newNick: Name)
    requires k in s.users
  {
    s.users[k].guest && GuestKey(newNick) != k && GuestKey(newNick) !in s.users
  }

  function Renamed(p: Runner, newNick: Name, r: Rules): Runner {
    p.(progress := p.progress - PenaltySeconds(p.level, NickChange, 0, r), heat := ClampHeat(p.heat + 4),
       nick := newNick)
  }

  function MoveRunner(s: State, k: Key, to: Key): State
    requires k in s.users
  {
    s.(users := (s.users - {k})[to := s.users[k].(identity := to)],
       repo := s.repo.(players := s.repo.players - {k}),
       world := s.world.(contract := Rekey(s.world.contract, k, to)))
  }

  function RenameAt(s: State, k: Key, newNick: Name, now: Time): State
    requires k in s.users
  {
    var to := GuestKey(newNick);
    var s1 := AdvanceAt(s, k, now);
    var s2 := SetAt(s1, k, Renamed(s1.users[k], newNick, s.rules));
    if Moves(s, k, newNick) then
      var s3 := SaveAt(MoveRunner(s2, k, to), to);
      if Rekeys(s.world.contract, k, to) then SaveWorld(s3) else s3
    else SaveAt(s2, k)
  }

  function Rename(s: State, oldNick: Name, newNick: Name, now: Time, order: seq<Key>): State {
    var hit := Find(s.users, None, oldNick, order);
    if hit.None? || !s.users[hit.value].connected then s else RenameAt(s, hit.value, newNick, now)
  }

  // ---- Top ----

  function RefreshAt(s: State, k: Key, now: Time): State {
    if k in s.users && s.users[k].connected then SaveAt(AdvanceAt(s, k, now), k) else s
  }

  function RefreshAll(s: State, order: seq<Key>, now: Time): State {
    if order == [] then s
    else RefreshAt(RefreshAll(s, order[..|order| - 1], now), order[|order| - 1], now)
  }

  // ---- Artifacts ----

  function RareSlot(i: nat): Slot
    requires i < 5
  {
    [Deck, NeuralImplant, WeaponRig, ArmorPlating, Drone][i]
  }

  /** Tiers above on-level gear. */
  function Bonus(slot: Slot): int {
    match slot
    case Deck => 3
    case NeuralImplant => 2
    case WeaponRig => 4
    case ArmorPlating => 3
    case Drone => 2
  }

  const UNIQUE_MIN_LIFE: nat := 4
  const UNIQUE_LIFE_RANGE: nat := 5

  function UniqueLife(rng: Rng): (n: nat)
    ensures 4 <= n <= 8
  {
    UNIQUE_MIN_LIFE + Draw(rng, UNIQUE_LIFE_RANGE)
  }

  function RareLootChance(p: Runner): int {
    var chance := 5 + p.heat / 10;
    Min(100, match p.stance case Hot => chance * 2 case Cold => chance / 2 case Normal => chance)
  }

  function FreshArtifact(slot: Slot, level: Level, life: nat): Item {
    Item(ArtifactName(slot), GearTier(level) + Bonus(slot), true, level + life)
  }

  /** The first artifact from `start` on that may drop and nobody has claimed. */
  function Unclaimed(claimed: Registry, exclude: Option<ItemName>, start: nat, i: nat): (hit: Option<Slot>)
    requires start < 5 && i <= 5
    ensures hit.Some? ==> ArtifactName(hit.value) !in claimed && exclude != Some(ArtifactName(hit.value))
    decreases 5 - i
  {
    if i == 5 then None
    else
      var slot := RareSlot((start + i) % 5);
      if exclude == Some(ArtifactName(slot)) || ArtifactName(slot) in claimed
      then Unclaimed(claimed, exclude, start, i + 1)
      else Some(slot)
  }

  function EquipAt(s: State, k: Key, slot: Slot, item: Item): State
    requires k in s.users
  {
    SetAt(s, k, s.users[k].(equipment := s.users[k].equipment[slot := item]))
  }

  /** A fresh artifact goes into its slot. */
  function FitAt(s: State, k: Key, slot: Slot): State
    requires k in s.users
  {
    EquipAt(Skip(s), k, slot, FreshArtifact(slot, s.users[k].level, UniqueLife(s.rng)))
  }

  function ClaimName(s: State, name: ItemName, owner: Key): State {
    s.(repo := s.repo.(claimed := s.repo.claimed[name := owner]))
  }

  /** The artifact of the slot drops for the runner. */
  function Award(s: State, k: Key, slot: Slot): State
    requires k in s.users
  {
    FitAt(ClaimName(s, ArtifactName(slot), k), k, slot)
  }

  function LootSlot(s: State, k: Key, exclude: Option<ItemName>): (hit: Option<Slot>)
    requires k in s.users
    ensures hit.Some? ==> ArtifactName(hit.value) !in s.repo.claimed && exclude != Some(ArtifactName(hit.value))
  {
    if Draw(s.rng, 100) >= RareLootChance(s.users[k]) then None
    else Unclaimed(s.repo.claimed, exclude, Draw(Rest(s.rng), 5), 0)
  }

  /** rareLootLocked: roll the drop table. */
  function RareLoot(s: State, k: Key, exclude: Option<ItemName>): State
    requires k in s.users
  {
    var hit := LootSlot(s, k, exclude);
    if Draw(s.rng, 100) >= RareLootChance(s.users[k]) then Skip(s)
    else if hit.Some? then Award(Skip(Skip(s)), k, hit.value)
    else Skip(Skip(s))
  }

  /** retireUniqueLocked: the registry entry goes, standard gear comes. */
  function RetireAt(s: State, k: Key, slot: Slot): State
    requires k in s.users
  {
    var p := s.users[k];
    s.(users := s.users[k := p.(equipment := p.equipment[slot := StandardItem(slot, p.level)])],
       repo := s.repo.(claimed := s.repo.claimed - {GearIn(p.equipment, slot).name}))
  }

  // ---- Tick: contracts, crash windows, dead drops ----

  datatype TS = TS(s: State, out: seq<Msg>)

  function Say(t: TS, m: Msg): TS { t.(out := t.out + [m]) }

  /** Move everything queued to the tick's output. */
  function TakePending(t: TS): TS {
    TS(t.s.(pending := []), t.out + t.s.pending)
  }

  function NextSwap(now: Time, rng: Rng): Time {
    now + FACTION_SWAP_WEEK + Draw(rng, 7) * DAY
  }

  predicate SwapCloses(w: World, now: Time) {
    w.swapUntil != 0 && now >= w.swapUntil
  }

  predicate SwapStarts(w: World, now: Time) {
    w.swapUntil == 0 && w.nextSwapAt != 0 && now >= w.nextSwapAt
  }

  function SwapTick(t: TS, now: Time): TS {
    var s := t.s;
    if SwapCloses(s.world, now) then
      Say(t.(s := SaveWorld(s.(world := s.world.(swapUntil := 0)))), SystemRestored)
    else if SwapStarts(s.world, now) then
      Say(t.(s := SaveWorld(Skip(s.(world := s.world.(swapStartedAt := now, swapUntil := now + FACTION_SWAP_DURATION,
                                                      nextSwapAt := NextSwap(now, s.rng)))))), SystemCrash)
    else t
  }

  predicate ContractDue(w: World, now: Time) {
    w.contract.Some? && (now >= w.contract.value.endsAt || w.contract.value.failed)
  }

  /** Every participant is linked and nobody's signal dropped. */
  predicate ContractHeld(s: State)
    requires s.world.contract.Some?
  {
    && !s.world.contract.value.failed
    && forall k :: k in s.world.contract.value.participants ==> k in s.users && s.users[k].connected
  }

  function Settled(p: Runner, success: bool, r: Rules): Runner {
    if success
    then p.(progress := p.progress + Max(60, LevelDuration(r, p.level) / 6), heat := ClampHeat(p.heat + 3))
    else p.(progress := p.progress - Max(120, LevelDuration(r, p.level) / 4), heat := ClampHeat(p.heat + 10))
  }

  function SettleAt(s: State, k: Key, success: bool, now: Time): State {
    if k !in s.users then s
    else
      var s1 := AdvanceAt(s, k, now);
      SaveAt(SetAt(s1, k, Settled(s1.users[k], success, s.rules)), k)
  }

  function SettleAll(s: State, team: seq<Key>, success: bool, now: Time): State {
    if team == [] then s
    else SettleAt(SettleAll(s, team[..|team| - 1], success, now), team[|team| - 1], success, now)
  }

  function ResolveContract(t: TS, now: Time): TS {
    var s := t.s;
    if !ContractDue(s.world, now) then t
    else
      var c, success := s.world.contract.value, ContractHeld(s);
      var s1 := SettleAll(s, c.participants, success, now);
      Say(t.(s := s1.(world := s1.world.(contract := None))),
          if success then ContractComplete else ContractFailed(c.droppedBy))
  }

  function ConnectedIn(users: map<Key, Runner>, order: seq<Key>): (team: seq<Key>)
    ensures forall k :: k in team <==> k in order && k in users && users[k].connected
  {
    if order == [] then []
    else
      var k := order[|order| - 1];
      ConnectedIn(users, order[..|order| - 1]) + if k in users && users[k].connected then [k] else []
  }

  function StartContract(t: TS, now: Time, order: seq<Key>): TS {
    var s := t.s;
    var team := ConnectedIn(s.users, order);
    var picked := team[..Min(|team|, s.rules.contractMax)];
    var c := Contract(picked, now + s.rules.contractDuration, false, None);
    Say(t.(s := s.(world := s.world.(contract := Some(c)))), ContractStarted(Names(s.users, picked)))
  }

  function Names(users: map<Key, Runner>, team: seq<Key>): seq<Name>
    requires forall k :: k in team ==> k in users
  {
    seq(|team|, i requires 0 <= i < |team| => assert team[i] in team; DisplayName(users[team[i]]))
  }

  function DropExpiry(t: TS, now: Time): TS {
    if t.s.world.deadDrop.None? || now < t.s.world.pirateUntil then t
    else Say(t.(s := t.s.(world := t.s.world.(deadDrop := None))), DropExpired)
  }

  const DROP_ALPHABET: string := "ACDEFHJKMNPRTVWXY3479"
  const DROP_NOISE: string := "#%&@*+=~"
  const DROP_LENGTH: nat := 5

  /** The remaining `n` letters of a code, the static they are buried in, and the source after drawing them. */
  function DropCode(rng: Rng, n: nat): (string, string, Rng) {
    if n == 0 then ("", "", rng)
    else
      var c := DROP_ALPHABET[Draw(rng, 21)];
      if n == 1 then ([c], [c], Rest(rng))
      else
        var noise := DROP_NOISE[Draw(Rest(rng), 8)];
        var (code, garbled, rest) := DropCode(Rest(Rest(rng)), n - 1);
        ([c] + code, [c, noise] + garbled, rest)
  }

  lemma NoCode(rng: Rng)
    ensures DropCode(rng, 0) == ("", "", rng)
  {
  }

  function OpenPirateFrequency(t: TS, now: Time): TS {
    var s := t.s;
    var (code, garbled, rng) := DropCode(s.rng, DROP_LENGTH);
    Say(t.(s := s.(world := s.world.(pirateUntil := now + s.rules.pirateDuration, deadDrop := Some(code)), rng := rng)),
        PirateFrequency(garbled))
  }

  function ForcePirate(s: State, now: Time): State {
    var t := OpenPirateFrequency(TS(s, []), now);
    Remember(t.s, t.out)
  }

  /** `text` is the message trimmed and in upper case, as codes are written. */
  function ClaimHit(s: State, identity: Option<Key>, nick: Name, channel: Name, text: string, now: Time,
                    order: seq<Key>)
    : (hit: Option<Key>)
    ensures hit.Some? ==> hit.value in s.users && s.users[hit.value].connected
  {
    var hit := Find(s.users, identity, nick, order);
    if EqualFold(channel, s.rules.gameChannel) && s.world.deadDrop == Some(text)
       && now < s.world.pirateUntil && hit.Some? && s.users[hit.value].connected
    then hit else None
  }

  function Shard(p: Runner, r: Rules): Runner {
    p.(progress := p.progress + Max(60, LevelDuration(r, p.level) / 10))
  }

  function ClaimAt(s: State, k: Key, now: Time): State
    requires k in s.users
  {
    var s1 := AdvanceAt(s, k, now);
    var s2 := SetAt(s1, k, Shard(s1.users[k], s.rules));
    Remember(SaveAt(s2.(world := s2.world.(deadDrop := None)), k), [DropClaimed(DisplayName(s1.users[k]))])
  }

  function ClaimDeadDrop(s: State, identity: Option<Key>, nick: Name, channel: Name, text: string, now: Time,
                         order: seq<Key>): State
  {
    var hit := ClaimHit(s, identity, nick, channel, text, now, order);
    if hit.None? then s else ClaimAt(s, hit.value, now)
  }

  // ---- Tick: raids ----

  const RAID_WARNING: int := 30 * MINUTE

  function CallAt(s: State, k: Key, now: Time): State {
    if k in s.users && s.users[k].connected then AdvanceAt(s, k, now) else s
  }

  /** Everybody linked is caught up. */
  function AdvanceTeam(s: State, order: seq<Key>, now: Time): State {
    if order == [] then s else CallAt(AdvanceTeam(s, order[..|order| - 1], now), order[|order| - 1], now)
  }

  function RaidPower(p: Runner): int {
    p.level + EquipmentRating(p.equipment) + if p.faction == Ghostline then 2 else 0
  }

  function RaidWall(p: Runner): int {
    p.level + Gear.ExpectedRating(p.level)
  }

  function TeamPower(users: map<Key, Runner>, team: seq<Key>): int
    requires forall k :: k in team ==> k in users
  {
    if team == [] then 0
    else TeamPower(users, team[..|team| - 1]) + RaidPower(users[team[|team| - 1]])
  }

  function TeamWall(users: map<Key, Runner>, team: seq<Key>): int
    requires forall k :: k in team ==> k in users
  {
    if team == [] then 0
    else TeamWall(users, team[..|team| - 1]) + RaidWall(users[team[|team| - 1]])
  }

  function Teamwork(size: int): int { Max(75, 100 - 5 * (size - 1)) }

  predicate RaidWon(power: int, wall: int, roll: int, size: int) {
    power * 100 * 100 >= wall * roll * Teamwork(size)
  }

  function Raided(p: Runner, success: bool, r: Rules): Runner {
    if success
    then p.(progress := p.progress + Max(60, LevelDuration(r, p.level) / 8), heat := ClampHeat(p.heat + 3))
    else p.(progress := p.progress - Max(60, LevelDuration(r, p.level) / 12), heat := ClampHeat(p.heat + 6))
  }

  function PayTeam(s: State, team: seq<Key>, success: bool): State
    requires forall k :: k in team ==> k in s.users
    ensures PayTeam(s, team, success).users.Keys == s.users.Keys
  {
    if team == [] then s
    else
      var s1 := PayTeam(s, team[..|team| - 1], success);
      var k := team[|team| - 1];
      SaveAt(SetAt(s1, k, Raided(s1.users[k], success, s.rules)), k)
  }

  /** The team's combined power against the wall, under this tick's roll. */
  predicate TeamWins(s: State, team: seq<Key>)
    requires forall k :: k in team ==> k in s.users
  {
    RaidWon(TeamPower(s.users, team), TeamWall(s.users, team), 55 + Draw(s.rng, 76), |team|)
  }

  /** The raid at `t` meets everyone linked. */
  function RaidStep(t: TS, now: Time, order: seq<Key>): TS {
    var s := AdvanceTeam(t.s, order, now);
    var team := ConnectedIn(s.users, order);
    if team == [] then Say(t.(s := s), RaidEmpty)
    else
      var won := TeamWins(s, team);
      Say(t.(s := PayTeam(Skip(s), team, won)), if won then RaidDown(|team|) else RaidHolds(|team|))
  }

  function ResolveRaid(t: TS, now: Time, order: seq<Key>): TS {
    if t.s.world.raid.None? || now < t.s.world.raid.value then t
    else RaidStep(t.(s := t.s.(world := t.s.world.(raid := None))), now, order)
  }

  predicate RaidCanStart(s: State, order: seq<Key>) {
    s.world.raid.None? && |ConnectedIn(s.users, order)| >= 2
  }

  function StartRaid(t: TS, now: Time): TS {
    Say(t.(s := t.s.(world := t.s.world.(raid := Some(now + RAID_WARNING)))), RaidAlert)
  }

  // ---- Tick: city events ----

  function EventKind(i: nat): CityEvent
    requires i < 6
  {
    [Blackout, CorporateSweep, DataLeak, GangWar, Bounty, MegacorpRun][i]
  }

  function If(c: bool, n: int): int { if c then n else 0 }

  function ProgressChange(event: CityEvent, p: Runner): int {
    match event
    case Blackout => -60 - If(p.district == OldTransit, 60)
    case CorporateSweep =>
      -90 + If(p.faction == Ghostline, 45) - If(p.district == CorporateArcology, 30)
      - If(CorporateBackdoor in p.scars, 30)
    case DataLeak => 120 + If(p.district == Floodline, 60)
    case GangWar => -120 - If(p.district == GhostQuarter, 90) + If(p.faction == Nomad, 30)
    case Bounty => 90 + If(p.faction == Chrome, 60)
    case MegacorpRun => 180 + If(p.district == CorporateArcology || p.faction == Chrome, 60)
  }

  /** A data leak overclocks whatever sits in the deck slot, artifacts included. */
  function Overclocked(eq: Loadout): Loadout {
    var item := GearIn(eq, Deck);
    var base := if item.name.base == Unnamed then BareDeck else item.name.base;
    eq[Deck := item.(name := item.name.(base := base, leaked := true), rating := item.rating + 1)]
  }

  function EventHit(p: Runner, event: CityEvent, scarred: bool, now: Time): Runner {
    var soon := now + 15 * MINUTE;
    var q := p.(progress := p.progress + ProgressChange(event, p));
    match event
    case CorporateSweep =>
      q.(heat := ClampHeat(q.heat + 10),
         scars := if scarred then AppendUnique(q.scars, [CorporateBackdoor]) else q.scars)
    case DataLeak =>
      q.(equipment := Overclocked(q.equipment),
         nextEncounterAt := if q.nextEncounterAt == 0 || q.nextEncounterAt > soon then soon else q.nextEncounterAt)
    case _ => q
  }

  /** A corporate sweep draws for a scar. */
  function HitAt(s: State, k: Key, event: CityEvent, now: Time): State
    requires k in s.users
  {
    var sweep := event == CorporateSweep;
    SetAt(if sweep then Skip(s) else s, k, EventHit(s.users[k], event, sweep && Draw(s.rng, 20) == 0, now))
  }

  function EventAt(s: State, k: Key, event: CityEvent, now: Time): State {
    if k !in s.users || !s.users[k].connected then s else SaveAt(HitAt(AdvanceAt(s, k, now), k, event, now), k)
  }

  function EventAll(s: State, order: seq<Key>, event: CityEvent, now: Time): State {
    if order == [] then s
    else EventAt(EventAll(s, order[..|order| - 1], event, now), order[|order| - 1], event, now)
  }

  /** What a due city event turns out to be. */
  datatype News = Pirate | Raid | NewContract | Event(kind: CityEvent)

  function Pick(s: State, order: seq<Key>): (News, Rng) {
    if Draw(s.rng, 10) == 0 then (Pirate, Rest(s.rng))
    else
      var rng1 := Rest(s.rng);
      if Draw(rng1, 8) == 0 && RaidCanStart(s, order) then (Raid, Rest(rng1))
      else
        var rng2 := Rest(rng1);
        var kind := EventKind(Draw(rng2, 6));
        if kind == MegacorpRun && s.world.contract.None? && ConnectedIn(s.users, order) != []
        then (NewContract, Rest(rng2))
        else (Event(kind), Rest(rng2))
  }

  function CityEventStep(t: TS, now: Time, order: seq<Key>): TS {
    var (news, rng) := Pick(t.s, order);
    var u := t.(s := t.s.(rng := rng));
    match news
    case Pirate => OpenPirateFrequency(u, now)
    case Raid => StartRaid(u, now)
    case NewContract => StartContract(u, now, order)
    case Event(kind) => Say(u.(s := EventAll(u.s, order, kind, now)), CityNews(kind))
  }

  function CityEventTick(t: TS, now: Time, order: seq<Key>): TS {
    if t.s.world.nextCityEventAt == 0 || now < t.s.world.nextCityEventAt then t
    else
      var u := CityEventStep(t, now, order);
      u.(s := SaveWorld(u.s.(world := u.s.world.(nextCityEventAt := now + u.s.rules.cityEventInterval))))
  }

  // ---- Tick: one runner ----

  const STREAK_DAY: int := DAY

  function StreakStep(t: TS, k: Key, now: Time): TS
    requires k in t.s.users
  {
    var p := t.s.users[k];
    var days := (now - p.streakSince) / STREAK_DAY;
    if p.streakSince == 0 then t.(s := SetAt(t.s, k, p.(streakSince := now)))
    else if days <= p.streakDays then t
    else
      Say(t.(s := SetAt(t.s, k, p.(streakDays := days,
                                   progress := p.progress + Max(120, LevelDuration(t.s.rules, p.level) / 4)))),
          GhostProtocol(DisplayName(p), days))
  }

  function OtherDistrict(current: District, i: nat): District
    requires i < 4
  {
    match current
    case NeonMarket => [Floodline, CorporateArcology, OldTransit, GhostQuarter][i]
    case Floodline => [NeonMarket, CorporateArcology, OldTransit, GhostQuarter][i]
    case CorporateArcology => [NeonMarket, Floodline, OldTransit, GhostQuarter][i]
    case OldTransit => [NeonMarket, Floodline, CorporateArcology, GhostQuarter][i]
    case GhostQuarter => [NeonMarket, Floodline, CorporateArcology, OldTransit][i]
  }

  predicate Due(at: Time, now: Time) { at != 0 && now >= at }

  function DriftStep(t: TS, k: Key, now: Time): TS
    requires k in t.s.users
  {
    var s, p := t.s, t.s.users[k];
    if !Due(p.nextDistrictAt, now) then t
    else
      var to := OtherDistrict(p.district, Draw(s.rng, 4));
      Say(t.(s := Skip(SetAt(s, k, p.(district := to, nextDistrictAt := now + s.rules.districtInterval)))),
          Drift(DisplayName(p), p.district, to))
  }

  function StanceOdds(stance: Stance): int {
    match stance case Hot => -10 case Cold => 10 case Normal => 0
  }

  function StanceReward(stance: Stance, gain: nat): nat {
    match stance case Hot => gain * 3 / 2 case Cold => gain * 3 / 5 case Normal => gain
  }

  function StanceHeat(stance: Stance, heat: nat): nat {
    match stance case Hot => heat * 3 / 2 case Cold => heat / 2 case Normal => heat
  }

  function IceWinChance(p: Runner, champion: Faction): int {
    var district := match p.district
      case CorporateArcology => 2 case OldTransit => 1 case GhostQuarter => -2 case _ => 0;
    var chance := 65 + 3 * (EquipmentRating(p.equipment) - Gear.ExpectedRating(p.level)) + StanceOdds(p.stance)
      + If(champion != Unaffiliated && p.faction == champion, 5)
      + If(GhostSignal in p.scars, 5) - If(BurnedOptic in p.scars, 5) + If(p.faction == Ghostline, 10)
      + 5 * district - p.heat / 5;
    Max(10, Min(95, chance))
  }

  function IceWon(p: Runner, scarred: bool, r: Rules): Runner {
    var base := Max(10, LevelDuration(r, p.level) / 20);
    var gain := if p.faction == Chrome then base * 3 / 2 else base;
    p.(progress := p.progress + StanceReward(p.stance, gain), heat := ClampHeat(p.heat + StanceHeat(p.stance, 2)),
       scars := if scarred then AppendUnique(p.scars, [GhostSignal]) else p.scars)
  }

  function IceLost(p: Runner, scarred: bool, r: Rules): Runner {
    var base := Max(5, LevelDuration(r, p.level) / 30);
    var softened := if p.faction == Nomad then Max(3, base / 2) else base;
    var loss := if p.district == GhostQuarter then softened * 3 / 2 else softened;
    p.(progress := p.progress - loss, heat := ClampHeat(p.heat + StanceHeat(p.stance, 8)),
       scars := if scarred then AppendUnique(p.scars, [BurnedOptic]) else p.scars)
  }

  /** encounterLocked: an ICE encounter, with the drop table behind a win. */
  function Encounter(t: TS, k: Key, champion: Faction): TS
    requires k in t.s.users
  {
    var s, p := t.s, t.s.users[k];
    var rng := Rest(s.rng);
    if Draw(s.rng, 100) < IceWinChance(p, champion) then
      var s1 := SetAt(s, k, IceWon(p, Draw(rng, 25) == 0, s.rules)).(rng := Rest(rng));
      var hit := LootSlot(s1, k, None);
      Say(t.(s := RareLoot(s1, k, None)),
          if hit.Some? then IceUnique(DisplayName(p), ArtifactName(hit.value)) else IceWin(DisplayName(p)))
    else
      Say(t.(s := SetAt(s, k, IceLost(p, Draw(rng, 12) == 0, s.rules)).(rng := Rest(rng))), IceLoss(DisplayName(p)))
  }

  function Rearmed(p: Runner, now: Time, r: Rules): Runner {
    p.(nextEncounterAt := now + r.encounterInterval)
  }

  /** The encounter timer is wound up again and the encounter's progress is applied. */
  function Rearm(s: State, k: Key, now: Time): State
    requires k in s.users
  {
    AdvanceAt(SetAt(s, k, Rearmed(s.users[k], now, s.rules)), k, now)
  }

  function EncounterStep(t: TS, k: Key, now: Time, champion: Faction): (u: TS)
    requires k in t.s.users
  {
    if !Due(t.s.users[k].nextEncounterAt, now) then t
    else var u := Encounter(t, k, champion); u.(s := Rearm(u.s, k, now))
  }

  /** The artifact has reached its burn-out level. */
  predicate BurnsOut(p: Runner, slot: Slot) {
    Holds(p, slot) && p.equipment[slot].breaksAt != 0 && p.level >= p.equipment[slot].breaksAt
  }

  function BurnSlot(t: TS, k: Key, slot: Slot): TS
    requires k in t.s.users
  {
    var p := t.s.users[k];
    if !BurnsOut(p, slot) then t
    else
      var item := p.equipment[slot];
      var s := RetireAt(t.s, k, slot);
      var hit := LootSlot(s, k, Some(item.name));
      Say(t.(s := RareLoot(s, k, Some(item.name))),
          BurnedOut(DisplayName(p), item.name, if hit.Some? then Some(ArtifactName(hit.value)) else None))
  }

  function BurnSlots(t: TS, k: Key, n: nat): (u: TS)
    requires k in t.s.users && n <= |SLOTS|
    ensures k in u.s.users
  {
    if n == 0 then t else BurnSlot(BurnSlots(t, k, n - 1), k, SLOTS[n - 1])
  }

  /** Accrual, streak, drift and encounter of a linked runner. */
  function PassiveStep(t: TS, k: Key, now: Time, champion: Faction): TS
    requires k in t.s.users
  {
    EncounterStep(DriftStep(StreakStep(t.(s := AdvanceAt(t.s, k, now)), k, now), k, now), k, now, champion)
  }

  /** Burn-outs, between two deliveries of what was queued, and the save. */
  function UpkeepStep(t: TS, k: Key): TS
    requires k in t.s.users
  {
    var u := TakePending(BurnSlots(TakePending(t), k, |SLOTS|));
    u.(s := SaveAt(u.s, k))
  }

  function LiveStep(t: TS, k: Key, now: Time, champion: Faction): TS
    requires k in t.s.users
  {
    UpkeepStep(PassiveStep(t, k, now, champion), k)
  }

  function RetireSlot(t: TS, k: Key, slot: Slot): (u: TS)
    requires k in t.s.users
    ensures k in u.s.users
  {
    var p := t.s.users[k];
    if !Holds(p, slot) then t
    else Say(t.(s := RetireAt(t.s, k, slot)), WentDark(DisplayName(p), p.equipment[slot].name))
  }

  function RetireSlots(t: TS, k: Key, n: nat): (u: TS)
    requires k in t.s.users && n <= |SLOTS|
    ensures k in u.s.users
  {
    if n == 0 then t else RetireSlot(RetireSlots(t, k, n - 1), k, SLOTS[n - 1])
  }

  /** releaseAbandonedUniquesLocked. */
  function Abandon(t: TS, k: Key): TS
    requires k in t.s.users
  {
    var u := RetireSlots(TS(t.s, []), k, |SLOTS|);
    TS(if u.out != [] then SaveAt(u.s, k) else u.s, t.out + u.out)
  }

  predicate OfflineLonger(p: Runner, now: Time, limit: int) {
    !p.connected && p.lastSeenAt != 0 && now - p.lastSeenAt > limit
  }

  predicate Pruned(p: Runner, now: Time, r: Rules) {
    p.guest && OfflineLonger(p, now, r.guestRetention)
  }

  function PruneAt(s: State, k: Key): State {
    s.(users := s.users - {k}, repo := s.repo.(players := s.repo.players - {k}))
  }

  function RunnerStep(t: TS, k: Key, now: Time, champion: Faction): TS {
    if k !in t.s.users then t
    else
      var p := t.s.users[k];
      if Pruned(p, now, t.s.rules) then t.(s := PruneAt(t.s, k))
      else if OfflineLonger(p, now, t.s.rules.artifactRelease) then Abandon(t, k)
      else if !p.connected then t
      else LiveStep(t, k, now, champion)
  }

  function RunnerSteps(t: TS, order: seq<Key>, now: Time, champion: Faction): TS {
    if order == [] then t
    else RunnerStep(RunnerSteps(t, order[..|order| - 1], now, champion), order[|order| - 1], now, champion)
  }

  /** The walk one runner at a time. */
  lemma WalkedSoFar(t: TS, keys: seq<Key>, i: nat, now: Time, champion: Faction)
    requires i <= |keys|
    ensures i == 0 ==> RunnerSteps(t, keys[..i], now, champion) == t
    ensures i < |keys| ==>
              RunnerSteps(t, keys[..i + 1], now, champion)
              == RunnerStep(RunnerSteps(t, keys[..i], now, champion), keys[i], now, champion)
  {
    hide RunnerStep;
    if i < |keys| { assert keys[..i + 1][..i] == keys[..i]; }
  }

  // ---- Tick: collisions and theft ----

  function CollisionPower(p: Runner): int {
    p.level + EquipmentRating(p.equipment) + p.heat / 25
    + If(SyntheticAdrenalGland in p.scars, 2) - If(BurnedOptic in p.scars, 1)
    + (match p.faction case Ghostline => 2 case Chrome => 1 case Nomad => 1 case Unaffiliated => 0)
    + (match p.district case Floodline => 1 case CorporateArcology => 1 case GhostQuarter => -1 case _ => 0)
  }

  function CollisionDue(users: map<Key, Runner>, order: seq<Key>, now: Time): (due: seq<Key>)
    ensures forall k :: k in due <==>
                          k in order && k in users && users[k].connected && Due(users[k].nextCollisionAt, now)
  {
    if order == [] then []
    else
      var k := order[|order| - 1];
      CollisionDue(users, order[..|order| - 1], now)
      + if k in users && users[k].connected && Due(users[k].nextCollisionAt, now) then [k] else []
  }

  function Others(users: map<Key, Runner>, order: seq<Key>, a: Key, localOnly: bool): (pool: seq<Key>)
    requires a in users
    ensures forall k :: k in pool <==> k in order && k in users && users[k].connected && k != a
                                       && (localOnly ==> users[k].district == users[a].district)
  {
    if order == [] then []
    else
      var k := order[|order| - 1];
      Others(users, order[..|order| - 1], a, localOnly)
      + if k in users && users[k].connected && k != a && (localOnly ==> users[k].district == users[a].district)
        then [k] else []
  }

  /** pickOpponentLocked: someone in the same district if there is anyone. */
  function Pool(users: map<Key, Runner>, order: seq<Key>, a: Key): seq<Key>
    requires a in users
  {
    var near := Others(users, order, a, true);
    if near != [] then near else Others(users, order, a, false)
  }

  function CountBout(p: Runner, rival: Key): Runner {
    p.(rivals := p.rivals[rival := Bouts(p.rivals, rival) + 1])
  }

  /** recordBout: both runners count the bout against the other. */
  function RecordBout(s: State, a: Key, b: Key): State
    requires a in s.users && b in s.users
  {
    var s1 := SetAt(s, a, CountBout(s.users[a], b));
    SetAt(s1, b, CountBout(s1.users[b], a))
  }

  function CollisionLoss(p: Runner, loss: int): int {
    if p.faction == Nomad then Max(3, loss / 2) else loss
  }

  /** A drone incident wears the loser's drone unless it is an artifact or worn out. */
  function DamagedDrone(eq: Loadout): Loadout {
    var item := GearIn(eq, Drone);
    if Drone in eq && !item.unique && item.rating > 0
    then eq[Drone := item.(rating := item.rating - 1, name := item.name.(damaged := true))]
    else eq
  }

  function Won(p: Runner, kind: nat, scarred: bool, r: Rules): Runner {
    var gain := Max(30, LevelDuration(r, p.level) / 20);
    p.(progress := p.progress + (if kind == 1 then gain * 2 else if kind == 2 then Max(15, gain / 2) else gain),
       heat := ClampHeat(p.heat + 3),
       scars := if scarred then AppendUnique(p.scars, [SyntheticAdrenalGland]) else p.scars)
  }

  function Lost(p: Runner, kind: nat, r: Rules): Runner {
    var loss := CollisionLoss(p, Max(20, LevelDuration(r, p.level) / 24));
    p.(progress := p.progress - (if kind == 1 then Max(15, loss / 2) else if kind == 2 then loss * 2 else loss),
       heat := ClampHeat(p.heat + 5),
       equipment := if kind == 3 then DamagedDrone(p.equipment) else p.equipment)
  }

  /** The slots among the first `n` in which the runner holds an artifact. */
  function UniqueSlots(p: Runner, n: nat): (slots: seq<Slot>)
    requires n <= |SLOTS|
    ensures forall slot :: slot in slots ==> Holds(p, slot)
    ensures forall i :: 0 <= i < n && Holds(p, SLOTS[i]) ==> SLOTS[i] in slots
  {
    if n == 0 then []
    else UniqueSlots(p, n - 1) + if Holds(p, SLOTS[n - 1]) then [SLOTS[n - 1]] else []
  }

  function Register(s: State, name: ItemName, owner: Key): State {
    s.(repo := s.repo.(claimed := Transfer(s.repo.claimed, name, owner)))
  }

  /** The artifact keeps its remaining lifespan as it changes hands. */
  function StealAt(s: State, winner: Key, loser: Key, slot: Slot): State
    requires winner in s.users && loser in s.users && winner != loser && Holds(s.users[loser], slot)
  {
    var w, l := s.users[winner], s.users[loser];
    var item := l.equipment[slot];
    var stolen := item.(breaksAt := w.level + Max(1, item.breaksAt - l.level));
    EquipAt(EquipAt(Register(s, item.name, winner), winner, slot, stolen), loser, slot, StandardItem(slot, l.level))
  }

  const THEFT_CHANCE: nat := 20

  /** The slot a theft empties, if one succeeds. */
  function TheftSlot(s: State, loser: Key): (hit: Option<Slot>)
    requires loser in s.users
    ensures hit.Some? ==> Holds(s.users[loser], hit.value)
  {
    var slots := UniqueSlots(s.users[loser], |SLOTS|);
    if slots == [] || Draw(s.rng, 100) >= THEFT_CHANCE then None
    else
      var slot := slots[Draw(Rest(s.rng), |slots|)];
      assert slot in slots;
      Some(slot)
  }

  function Theft(s: State, winner: Key, loser: Key): State
    requires winner in s.users && loser in s.users && winner != loser
  {
    var hit := TheftSlot(s, loser);
    if UniqueSlots(s.users[loser], |SLOTS|) == [] then s
    else if hit.None? then Skip(s)
    else StealAt(Skip(Skip(s)), winner, loser, hit.value)
  }

  /** Who wins a bout between `a` and `b`. */
  predicate Upset(s: State, a: Key, b: Key)
    requires a in s.users && b in s.users
  {
    CollisionPower(s.users[b]) + Draw(s.rng, 5) > CollisionPower(s.users[a]) + Draw(Rest(s.rng), 5)
  }

  function CooledDown(s: State, k: Key, now: Time): State
    requires k in s.users
  {
    SetAt(s, k, s.users[k].(nextCollisionAt := now + s.rules.collisionInterval))
  }

  /** What the bout does to meters, Heat, scars and the loser's drone. */
  function Blows(s: State, winner: Key, loser: Key): State
    requires winner in s.users && loser in s.users && winner != loser
  {
    var kind := Draw(Rest(s.rng), 4);
    var s1 := SetAt(s, winner, Won(s.users[winner], kind, Draw(s.rng, 20) == 0, s.rules));
    SetAt(s1, loser, Lost(s1.users[loser], kind, s.rules)).(rng := Rest(Rest(s.rng)))
  }

  /** Both runners cool down and are saved. */
  function Separate(s: State, winner: Key, loser: Key, now: Time): State
    requires winner in s.users && loser in s.users
  {
    SaveAt(SaveAt(CooledDown(CooledDown(s, winner, now), loser, now), winner), loser)
  }

  /** The consequences of a bout for winner and loser, theft included. */
  function Aftermath(t: TS, winner: Key, loser: Key, now: Time, round: Option<nat>): TS
    requires winner in t.s.users && loser in t.s.users && winner != loser
  {
    var s := Blows(t.s, winner, loser);
    var hit := TheftSlot(s, loser);
    var stolen := if hit.Some? then Some(s.users[loser].equipment[hit.value].name) else None;
    Say(t.(s := Separate(Theft(s, winner, loser), winner, loser, now)),
        Collision(round, DisplayName(s.users[winner]), DisplayName(s.users[loser]), stolen))
  }

  /** The two runners are each other's top rivals. */
  predicate Rivalry(users: map<Key, Runner>, a: Key, b: Key)
    requires a in users && b in users
  {
    TopRival(users[a].rivals) == Some(b) && TopRival(users[b].rivals) == Some(a)
  }

  function Round(users: map<Key, Runner>, a: Key, b: Key): Option<nat>
    requires a in users && b in users
  {
    if Rivalry(users, a, b) then Some(Bouts(users[a].rivals, b)) else None
  }

  function Bout(t: TS, a: Key, b: Key, now: Time): TS
    requires a in t.s.users && b in t.s.users && a != b
  {
    var s := RecordBout(t.s, a, b);
    var u, round := t.(s := Skip(Skip(s))), Round(s.users, a, b);
    if Upset(s, a, b) then Aftermath(u, b, a, now, round) else Aftermath(u, a, b, now, round)
  }

  /** Whom the initiator meets, and the source afterwards: a rival in the pool has an even chance of being the one. */
  function Opponent(s: State, pool: seq<Key>, a: Key): (pick: (Key, Rng))
    requires a in s.users && pool != []
    ensures pick.0 in pool
  {
    var rival := TopRival(s.users[a].rivals);
    if rival.Some? && Draw(s.rng, 2) == 0 && rival.value in pool then (rival.value, Rest(s.rng))
    else
      var rng := if rival.Some? then Rest(s.rng) else s.rng;
      (pool[Draw(rng, |pool|)], Rest(rng))
  }

  /** The initiator meets somebody, if there is anybody. */
  function Meet(t: TS, a: Key, now: Time, poolOrder: seq<Key>): TS
    requires a in t.s.users
  {
    var pool := Pool(t.s.users, poolOrder, a);
    if pool == [] then t
    else
      var (b, rng) := Opponent(t.s, pool, a);
      Bout(t.(s := t.s.(rng := rng)), a, b, now)
  }

  function CollisionStep(t: TS, now: Time, order: seq<Key>, poolOrder: seq<Key>): TS {
    var due := CollisionDue(t.s.users, order, now);
    if due == [] then t
    else
      var a := due[Draw(t.s.rng, |due|)];
      assert a in due;
      Meet(t.(s := Skip(t.s)), a, now, poolOrder)
  }

  // ---- Tick ----

  /** The orders in which one tick walks the map of runners. */
  datatype Orders = Orders(raid: seq<Key>, event: seq<Key>, runners: seq<Key>, due: seq<Key>, pool: seq<Key>)

  /**
   The raid, the city event and the walk over the runners meet everybody. The collision comes after guests
   were pruned, so its walks are left open: the state machine skips keys that are gone.
   */
  ghost predicate Walks(orders: Orders, keys: set<Key>) {
    Enumerates(orders.raid, keys) && Enumerates(orders.event, keys) && Enumerates(orders.runners, keys)
  }

  function WorldSteps(t: TS, now: Time, ord: Orders): TS {
    var t1 := ResolveRaid(ResolveContract(SwapTick(t, now), now), now, ord.raid);
    CityEventTick(DropExpiry(t1, now), now, ord.event)
  }

  /** The tick before its messages are remembered. */
  function TickSteps(s: State, now: Time, ord: Orders, champion: Faction): TS {
    var t := WorldSteps(TS(s.(pending := []), []), now, ord);
    var u := RunnerSteps(t.(out := t.out + s.pending), ord.runners, now, champion);
    TakePending(CollisionStep(u, now, ord.due, ord.pool))
  }

  function Tick(s: State, now: Time, ord: Orders, champion: Faction): State {
    var t := TickSteps(s, now, ord, champion);
    Remember(t.s, t.out)
  }

  // ---- Restart ----

  /** A legacy artifact from before burn-out existed gets a lifespan. */
  function FixSlots(eq: Loadout, level: Level, rng: Rng, n: nat): (Loadout, Rng)
    requires n <= |SLOTS|
  {
    if n == 0 then (eq, rng)
    else
      var (eq1, rng1) := FixSlots(eq, level, rng, n - 1);
      var slot := SLOTS[n - 1];
      if GearIn(eq1, slot).unique && GearIn(eq1, slot).breaksAt == 0
      then (eq1[slot := eq1[slot].(breaksAt := level + UniqueLife(rng1))], Rest(rng1))
      else (eq1, rng1)
  }

  function OrElse(at: Time, fallback: Time): Time { if at == 0 then fallback else at }

  /** A row as New brings it back: offline, clocks reset. */
  function Loaded(row: Runner, now: Time, r: Rules, rng: Rng): (Runner, Rng) {
    var (eq, rest) := FixSlots(row.equipment, row.level, rng, |SLOTS|);
    (row.(connected := false, lastProgressAt := now, lastHeatAt := now, equipment := eq,
          nextDistrictAt := OrElse(row.nextDistrictAt, now + r.districtInterval),
          nextEncounterAt := OrElse(row.nextEncounterAt, now + r.encounterInterval),
          nextCollisionAt := OrElse(row.nextCollisionAt, now + r.collisionInterval)),
     rest)
  }

  function LoadAt(s: State, k: Key, now: Time): State {
    if k !in s.repo.players then s
    else
      var (p, rng) := Loaded(s.repo.players[k], now, s.rules, s.rng);
      SaveAt(SetAt(s, k, p), k).(rng := rng)
  }

  /** Load and save back the rows in some order, into a state that starts with no runners. */
  function LoadRows(s: State, order: seq<Key>, now: Time): State {
    if order == [] then s else LoadAt(LoadRows(s, order[..|order| - 1], now), order[|order| - 1], now)
  }

  /** The first city event and the first crash window get a time. */
  function Schedule(s: State, now: Time): State {
    var unset := s.world.nextSwapAt == 0;
    var w := s.world.(nextCityEventAt := OrElse(s.world.nextCityEventAt, now + s.rules.cityEventInterval),
                      nextSwapAt := if unset then NextSwap(now, s.rng) else s.world.nextSwapAt);
    var t := s.(world := w, rng := if unset then Rest(s.rng) else s.rng);
    if s.world.nextCityEventAt == 0 || unset then SaveWorld(t) else t
  }

  /** New on a repository: the process restarts with nothing but what was saved. */
  function Restart(rules: Tuning, repo: Repo, now: Time, rng: Rng, order: seq<Key>): State {
    Schedule(LoadRows(State(rules, map[], repo, repo.world, [], map[], rng), order, now), now)
  }
}
