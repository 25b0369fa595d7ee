/** The values the Grid is made of: times, names, gear, runner records, world state and tuning. */
module Grid {

  datatype Option<+T> = None | Some(value: T)

  // ---- Time ----

  /** Nanoseconds since the epoch; 0 stands for Go's zero time, which precedes every real instant. */
  type Time = int

  const SECOND: int := 1_000_000_000
  const MINUTE: int := 60 * SECOND
  const HOUR: int := 60 * MINUTE
  const DAY: int := 24 * HOUR
  const FACTION_SWAP_DURATION: int := 24 * HOUR
  const FACTION_SWAP_WEEK: int := 7 * DAY

  // ---- Names and keys ----

  /** A nick, account or alias: its case-folded form and how it is spelled. */
  datatype Name = Name(fold: string, spelling: string)

  predicate EqualFold(a: Name, b: Name) {
    a.fold == b.fold
  }

  /** The key of a runner: "acct:" or "guest:" followed by a folded name. */
  datatype Key = Acct(fold: string) | Guest(fold: string)

  function AccountKey(account: Name): Key { Acct(account.fold) }

  function GuestKey(nick: Name): Key { Guest(nick.fold) }

  predicate ValidAlias(alias: Name) {
    0 < |alias.spelling| <= 24 && forall c | c in alias.spelling :: '!' <= c <= '~'
  }

  // ---- Gear ----

  datatype Slot = WeaponRig | ArmorPlating | NeuralImplant | Deck | Drone

  const SLOTS: seq<Slot> := [WeaponRig, ArmorPlating, NeuralImplant, Deck, Drone]

  /** What an item is called before any suffix. Each slot has exactly one artifact. */
  datatype Base = Unnamed | BareDeck | Mk(slot: Slot, tier: int) | Artifact(slot: Slot)

  /** A displayed item name: the base with its "[damaged]" and "[leak-overclocked]" suffixes. */
  datatype ItemName = ItemName(base: Base, damaged: bool, leaked: bool)

  datatype Item = Item(name: ItemName, rating: int, unique: bool, breaksAt: int)

  /** What reading an absent slot yields. */
  const NO_ITEM: Item := Item(ItemName(Unnamed, false, false), 0, false, 0)

  /** The name under which the registry knows the artifact of a slot. */
  function ArtifactName(slot: Slot): ItemName { ItemName(Artifact(slot), false, false) }

  type Loadout = map<Slot, Item>

  function GearIn(eq: Loadout, slot: Slot): Item {
    if slot in eq then eq[slot] else NO_ITEM
  }

  function EquipmentRating(eq: Loadout): int {
    GearIn(eq, WeaponRig).rating + GearIn(eq, ArmorPlating).rating + GearIn(eq, NeuralImplant).rating
    + GearIn(eq, Deck).rating + GearIn(eq, Drone).rating
  }

  // ---- Runners ----

  datatype Faction = Unaffiliated | Ghostline | Chrome | Nomad

  datatype District = NeonMarket | Floodline | CorporateArcology | OldTransit | GhostQuarter

  datatype Stance = Normal | Hot | Cold

  datatype Scar = BurnedOptic | GhostSignal | CorporateBackdoor | SyntheticAdrenalGland

  type Level = n: int | n >= 1 witness 1

  const MAX_HEAT: int := 100

  type Heat = n: int | 0 <= n <= MAX_HEAT

  function ClampHeat(heat: int): Heat {
    if heat < 0 then 0 else if heat > MAX_HEAT then MAX_HEAT else heat
  }

  datatype Runner = Runner(
    identity: Key,
    account: Option<Name>,
    nick: Name,
    alias: Option<Name>,
    guest: bool,
    level: Level,
    progress: int,
    lastProgressAt: Time,
    connected: bool,
    lastSeenAt: Time,
    nextEncounterAt: Time,
    nextCollisionAt: Time,
    nextDistrictAt: Time,
    district: District,
    heat: Heat,
    lastHeatAt: Time,
    faction: Faction,
    lastFactionSwapAt: Time,
    stance: Stance,
    equipment: Loadout,
    scars: seq<Scar>,
    rivals: map<Key, nat>,
    streakSince: Time,
    streakDays: int)

  /** Values of `additions` that are new go to the end, in order. */
  function AppendUnique<T(==)>(values: seq<T>, additions: seq<T>): seq<T> {
    if additions == [] then values
    else
      var all, x := AppendUnique(values, additions[..|additions| - 1]), additions[|additions| - 1];
      if x in all then all else all + [x]
  }

  function DisplayName(p: Runner): Name {
    if p.alias.Some? then p.alias.value else p.nick
  }

  /** The runner holds an artifact in the slot. */
  predicate Holds(p: Runner, slot: Slot) {
    GearIn(p.equipment, slot).unique
  }

  // ---- World ----

  /** A Megacorp Run. Its title and district only colour announcements. */
  datatype Contract = Contract(participants: seq<Key>, endsAt: Time, failed: bool, droppedBy: Option<Name>)

  datatype World = World(
    pirateUntil: Time,
    nextCityEventAt: Time,
    swapUntil: Time,
    swapStartedAt: Time,
    nextSwapAt: Time,
    recent: seq<Msg>,
    contract: Option<Contract>,
    deadDrop: Option<string>,
    raid: Option<Time>)

  datatype CityEvent = Blackout | CorporateSweep | DataLeak | GangWar | Bounty | MegacorpRun

  /** Announcements, without their wording. */
  datatype Msg =
    | SystemCrash
    | SystemRestored
    | ContractStarted(team: seq<Name>)
    | ContractComplete
    | ContractFailed(droppedBy: Option<Name>)
    | RaidAlert
    | RaidEmpty
    | RaidDown(linked: nat)
    | RaidHolds(linked: nat)
    | PirateFrequency(garbled: string)
    | DropClaimed(who: Name)
    | DropExpired
    | CityNews(kind: CityEvent)
    | LevelUp(who: Name, level: int, gained: int)
    | GhostProtocol(who: Name, days: int)
    | Drift(who: Name, origin: District, destination: District)
    | IceWin(who: Name)
    | IceUnique(who: Name, item: ItemName)
    | IceLoss(who: Name)
    | WentDark(who: Name, item: ItemName)
    | BurnedOut(who: Name, item: ItemName, salvage: Option<ItemName>)
    | Collision(round: Option<nat>, winner: Name, loser: Name, stolen: Option<ItemName>)

  // ---- Tuning ----

  datatype Rules = Rules(
    gameChannel: Name,
    baseLevelSeconds: int,
    levelStepSeconds: int,
    speechBase: int,
    speechPerLevel: int,
    speechPerCharacter: int,
    actionBase: int,
    actionPerLevel: int,
    actionPerCharacter: int,
    nickPenalty: int,
    partPenalty: int,
    quitPenalty: int,
    kickPenalty: int,
    encounterInterval: int,
    cityEventInterval: int,
    districtInterval: int,
    heatDecayInterval: int,
    contractDuration: int,
    contractMax: int,
    collisionInterval: int,
    pirateDuration: int,
    guestRetention: int,
    artifactRelease: int)

  /** What New's fallbacks leave of any tuning, together with the signs configuration enforces. */
  predicate RulesOk(r: Rules) {
    && r.baseLevelSeconds >= 1 && r.levelStepSeconds >= 0
    && r.encounterInterval >= SECOND && r.cityEventInterval >= SECOND && r.districtInterval >= SECOND
    && r.heatDecayInterval >= SECOND && r.contractDuration >= MINUTE && r.contractMax >= 1
    && r.collisionInterval >= MINUTE && r.pirateDuration >= SECOND
    && r.guestRetention >= HOUR && r.artifactRelease >= HOUR
  }

  /** Tuning an engine can run with. */
  type Tuning = r: Rules | RulesOk(r) witness DEFAULT_RULES

  const DEFAULT_RULES: Rules := Rules(Name("", ""), 1800, 0, 0, 0, 0, 0, 0, 0, 0, 0, 0, 0,
    HOUR, 2 * HOUR, 6 * HOUR, 30 * MINUTE, 8 * HOUR, 4, 90 * MINUTE, 5 * MINUTE, 14 * DAY, 7 * DAY)

  /** Tuning out of range is replaced by New's defaults; configuration keeps the level step from being negative. */
  function Fallbacks(r: Rules): (t: Rules)
    requires r.levelStepSeconds >= 0
    ensures RulesOk(t) && (RulesOk(r) ==> t == r)
  {
    r.(baseLevelSeconds := if r.baseLevelSeconds < 1 then 1800 else r.baseLevelSeconds,
       encounterInterval := if r.encounterInterval < SECOND then HOUR else r.encounterInterval,
       cityEventInterval := if r.cityEventInterval < SECOND then 2 * HOUR else r.cityEventInterval,
       districtInterval := if r.districtInterval < SECOND then 6 * HOUR else r.districtInterval,
       heatDecayInterval := if r.heatDecayInterval < SECOND then 30 * MINUTE else r.heatDecayInterval,
       contractDuration := if r.contractDuration < MINUTE then 8 * HOUR else r.contractDuration,
       contractMax := if r.contractMax < 1 then 4 else r.contractMax,
       collisionInterval := if r.collisionInterval < MINUTE then 90 * MINUTE else r.collisionInterval,
       pirateDuration := if r.pirateDuration < SECOND then 5 * MINUTE else r.pirateDuration,
       guestRetention := if r.guestRetention < HOUR then 14 * DAY else r.guestRetention,
       artifactRelease := if r.artifactRelease < HOUR then 7 * DAY else r.artifactRelease)
  }

  function Max(a: int, b: int): int { if a > b then a else b }

  function Min(a: int, b: int): int { if a < b then a else b }

  // ---- Random draws ----

  /**
   The random source is the list of draws still to come, so every sequence of draws is some source;
   an exhausted source yields 0.
   */
  type Rng = seq<nat>

  function Draw(rng: Rng, n: nat): (d: nat)
    requires n > 0
    ensures d < n
  {
    if rng == [] then 0 else rng[0] % n
  }

  function Rest(rng: Rng): Rng {
    if rng == [] then [] else rng[1..]
  }

  // ---- Map iteration ----

  /** `order` lists every element of `keys` exactly once: one order in which a map may be walked. */
  ghost predicate Enumerates<K(!new)>(order: seq<K>, keys: set<K>) {
    && (forall k :: k in order <==> k in keys)
    && (forall i, j :: 0 <= i < j < |order| ==> order[i] != order[j])
  }
}
