/** What events, penalties and settlements do to a runner's standing, and when they may. */
module Stakes {
  import opened Grid
  import opened Progression
  import opened StoreRows
  import opened Machine
  import opened Runs
  import Gear

  // ---- Penalties ----

  /** What configuration enforces of penalties. */
  predicate PenaltiesOk(r: Rules) {
    && r.speechBase >= 0 && r.speechPerLevel >= 0 && r.speechPerCharacter >= 0
    && r.actionBase >= 0 && r.actionPerLevel >= 0 && r.actionPerCharacter >= 0
    && r.nickPenalty >= 0 && r.partPenalty >= 0 && r.quitPenalty >= 0 && r.kickPenalty >= 0
  }

  lemma ProductGrows(a: int, b: int, c: int)
    requires a <= b && c >= 0
    ensures a * c <= b * c
  {
  }

  /** Penalties never pay, and grow with the level and with what was said; a netsplit costs nothing. */
  lemma PenaltiesGrow(level: Level, higher: Level, kind: Kind, length: int, longer: int, r: Rules)
    requires PenaltiesOk(r) && level <= higher && length <= longer
    ensures 0 <= PenaltySeconds(level, kind, length, r) <= PenaltySeconds(higher, kind, longer, r)
    ensures PenaltySeconds(level, Netsplit, length, r) == 0
  {
    ProductGrows(level - 1, higher - 1, r.speechPerLevel);
    ProductGrows(0, level - 1, r.speechPerLevel);
    ProductGrows(level - 1, higher - 1, r.actionPerLevel);
    ProductGrows(0, level - 1, r.actionPerLevel);
    ProductGrows(Max(0, length), Max(0, longer), r.speechPerCharacter);
    ProductGrows(0, Max(0, length), r.speechPerCharacter);
    ProductGrows(Max(0, length), Max(0, longer), r.actionPerCharacter);
    ProductGrows(0, Max(0, length), r.actionPerCharacter);
  }

  /** At level 1 a penalty is its base, and each level adds the rate of its kind. */
  lemma PenaltiesScale(level: Level, kind: Kind, length: int, r: Rules)
    ensures PenaltySeconds(1, Kick, 0, r) == r.kickPenalty && PenaltySeconds(1, Quit, 0, r) == r.quitPenalty
            && PenaltySeconds(1, Part, 0, r) == r.partPenalty && PenaltySeconds(1, NickChange, 0, r) == r.nickPenalty
            && PenaltySeconds(1, Chat, 0, r) == r.speechBase && PenaltySeconds(1, Action, 0, r) == r.actionBase
    ensures PenaltySeconds(level + 1, kind, length, r) - PenaltySeconds(level, kind, length, r)
            == match kind case Netsplit => 0 case Action => r.actionPerLevel case _ => r.speechPerLevel
    ensures length >= 0 && (kind == Chat || kind == Action) ==>
              PenaltySeconds(level, kind, length + 1, r) - PenaltySeconds(level, kind, length, r)
              == if kind == Chat then r.speechPerCharacter else r.actionPerCharacter
  {
  }

  /** What the operation from `s` to `t` took off the caught-up meter of the runner at `k`. */
  function Cost(s: State, t: State, k: Key, now: Time): int
    requires k in s.users && k in t.users
  {
    Advance(s.users[k], now, s.rules).progress - t.users[k].progress
  }

  /**
   From the opening of a pirate frequency until the configured time has passed chat and actions are free. At any other
   time, and of any other kind, what is said in the game channel costs its penalty; elsewhere nothing changes.
   */
  lemma FreeWhileOpen(t: TS, since: Time, identity: Option<Key>, nick: Name, channel: Name, kind: Kind, length: int,
                      now: Time, order: seq<Key>)
    requires Find(t.s.users, identity, nick, order).Some?
    ensures var s := OpenPirateFrequency(t, since).s;
            var k, u := Find(t.s.users, identity, nick, order).value,
                        Activity(s, identity, nick, channel, kind, length, now, order);
            && s.users == t.s.users && k in u.users
            && (EqualFold(channel, s.rules.gameChannel) ==>
                  Cost(s, u, k, now)
                  == if (kind == Chat || kind == Action) && now < since + s.rules.pirateDuration then 0
                     else PenaltySeconds(Advance(s.users[k], now, s.rules).level, kind, length, s.rules))
            && (!EqualFold(channel, s.rules.gameChannel) ==> u == s)
  {
    hide DropCode, Find, Advance, LevelMsgs, Queue, Stored, PenaltySeconds;
  }

  /** Speaking in the game channel is being seen, and changes nothing about a runner but that and the meter. */
  lemma SpeakingIsSeen(s: State, identity: Option<Key>, nick: Name, channel: Name, kind: Kind, length: int,
                       now: Time, order: seq<Key>)
    requires Find(s.users, identity, nick, order).Some? && EqualFold(channel, s.rules.gameChannel)
    ensures var k, u := Find(s.users, identity, nick, order).value,
                        Activity(s, identity, nick, channel, kind, length, now, order);
            && u.users.Keys == s.users.Keys && k in u.users && u.users[k].lastSeenAt == now
            && u.users[k].(lastSeenAt := 0, progress := 0)
               == Advance(s.users[k], now, s.rules).(lastSeenAt := 0, progress := 0)
            && forall j :: j in s.users && j != k ==> u.users[j] == s.users[j]
  {
    hide Find, Advance, LevelMsgs, Queue, Stored, PenaltySeconds;
  }

  /** The code of a dead drop is forgotten, and that is announced, by the first tick after its frequency closes. */
  lemma DropsExpire(t: TS, since: Time, now: Time)
    ensures var u := OpenPirateFrequency(t, since);
            var v := DropExpiry(u, now);
            if now < since + t.s.rules.pirateDuration then v == u
            else v.s.world.deadDrop.None? && v.out == u.out + [DropExpired]
  {
    hide DropCode;
  }

  // ---- City events ----

  predicate Friendly(event: CityEvent) { event == DataLeak || event == Bounty || event == MegacorpRun }

  /** Leaks, bounties and runs pay everybody; blackouts, sweeps and wars cost everybody. */
  lemma EventsPay(event: CityEvent, p: Runner, scarred: bool, now: Time)
    ensures if Friendly(event) then EventHit(p, event, scarred, now).progress >= p.progress + 90
            else EventHit(p, event, scarred, now).progress <= p.progress - 45
  {
    hide AppendUnique, ClampHeat, Overclocked;
  }

  /** Ghostline softens sweeps, Nomad wars; Chrome earns more of bounties and runs. */
  lemma FactionsFeelEvents(event: CityEvent, p: Runner, f: Faction)
    ensures var base, change := ProgressChange(event, p.(faction := Unaffiliated)),
                                ProgressChange(event, p.(faction := f));
            && (change > base <==>
                  || (f == Ghostline && event == CorporateSweep) || (f == Nomad && event == GangWar)
                  || (f == Chrome && (event == Bounty || (event == MegacorpRun && p.district != CorporateArcology))))
            && change >= base
  {
  }

  /** Where a runner is makes blackouts, sweeps and wars worse and leaks and runs better. */
  lemma DistrictsFeelEvents(event: CityEvent, p: Runner, d: District)
    ensures var base, change := ProgressChange(event, p.(district := NeonMarket)),
                                ProgressChange(event, p.(district := d));
            && (change < base <==>
                  || (event == Blackout && d == OldTransit) || (event == CorporateSweep && d == CorporateArcology)
                  || (event == GangWar && d == GhostQuarter))
            && (change > base <==>
                  || (event == DataLeak && d == Floodline)
                  || (event == MegacorpRun && d == CorporateArcology && p.faction != Chrome))
  {
  }

  /** A corporate backdoor makes sweeps worse and nothing else. */
  lemma BackdoorsHurt(event: CityEvent, p: Runner)
    requires CorporateBackdoor !in p.scars
    ensures var change := ProgressChange(event, p.(scars := p.scars + [CorporateBackdoor]));
            if event == CorporateSweep then change < ProgressChange(event, p) else change == ProgressChange(event, p)
  {
  }

  /**
   A data leak overclocks the deck by a rating point, and brings the next encounter to within fifteen minutes; no
   other event touches gear or timers.
   */
  lemma LeaksReach(event: CityEvent, p: Runner, scarred: bool, now: Time)
    ensures var q := EventHit(p, event, scarred, now);
            if event == DataLeak then
              && EquipmentRating(q.equipment) == EquipmentRating(p.equipment) + 1
              && (forall slot :: slot != Deck ==> GearIn(q.equipment, slot) == GearIn(p.equipment, slot))
              && q.nextEncounterAt <= now + 15 * MINUTE
              && (p.nextEncounterAt != 0 ==> q.nextEncounterAt <= p.nextEncounterAt)
            else q.equipment == p.equipment && q.nextEncounterAt == p.nextEncounterAt
  {
    hide AppendUnique, ClampHeat, ProgressChange;
  }

  /** A city event finds its time: the next comes a whole interval after it, and not before. */
  lemma EventsApart(t: TS, now: Time, order: seq<Key>, later: Time, laterOrder: seq<Key>)
    requires Due(t.s.world.nextCityEventAt, now) && now > 0 && later < now + t.s.rules.cityEventInterval
    ensures var u := CityEventTick(t, now, order); CityEventTick(u, later, laterOrder) == u
  {
    hide EventAll, ConnectedIn, DropCode, StoredWorld;
    var (news, rng) := Pick(t.s, order);
    if news.Event? { EventRules(t.s.(rng := rng), order, news.kind, now); }
  }

  lemma {:induction false} EventRules(s: State, order: seq<Key>, event: CityEvent, now: Time)
    ensures EventAll(s, order, event, now).rules == s.rules
  {
    hide Advance, LevelMsgs, Queue, Stored, EventHit;
    if order != [] { EventRules(s, order[..|order| - 1], event, now); }
  }

  /**
   One event in ten is a pirate frequency, of the others one in eight a raid if there can be one, and each kind of
   news comes by some draw.
   */
  lemma EventsVary(s: State, order: seq<Key>, kind: CityEvent) returns (rng: Rng)
    ensures Draw(s.rng, 10) == 0 <==> Pick(s, order).0.Pirate?
    ensures var news := Pick(s.(rng := rng), order).0;
            if kind == MegacorpRun && s.world.contract.None? && ConnectedIn(s.users, order) != [] then news.NewContract?
            else news == Event(kind)
    ensures Draw(s.rng, 10) != 0 && RaidCanStart(s, order) ==>
              (Draw(Rest(s.rng), 8) == 0 <==> Pick(s, order).0.Raid?)
  {
    hide ConnectedIn;
    var i: nat := match kind case Blackout => 0 case CorporateSweep => 1 case DataLeak => 2 case GangWar => 3
      case Bounty => 4 case MegacorpRun => 5;
    rng := [1, 1, i];
    assert Rest(rng) == [1, i] && Rest(Rest(rng)) == [i];
  }

  /** A city event is what the draws make it, but a raid takes two linked runners and a contract one. */
  lemma EventsNeedRunners(s: State, order: seq<Key>)
    requires Enumerates(order, s.users.Keys)
    ensures Pick(s, order).0.Raid? ==>
              s.world.raid.None?
              && exists a, b :: a in s.users && b in s.users && a != b && s.users[a].connected && s.users[b].connected
    ensures Pick(s, order).0.NewContract? ==>
              s.world.contract.None? && exists k :: k in s.users && s.users[k].connected
  {
    var linked := ConnectedIn(s.users, order);
    if |linked| >= 1 { assert linked[0] in linked; }
    if |linked| >= 2 {
      LinkedApart(s.users, order);
      assert linked[0] in linked && linked[1] in linked;
    }
  }

  lemma {:induction false} LinkedApart(users: map<Key, Runner>, order: seq<Key>)
    requires forall i, j :: 0 <= i < j < |order| ==> order[i] != order[j]
    ensures Distinct(ConnectedIn(users, order))
  {
    if order != [] {
      var rest := order[..|order| - 1];
      LinkedApart(users, rest);
      assert order[|order| - 1] !in ConnectedIn(users, rest);
    }
  }

  /** A contract recruits linked runners, each once, as many as there are up to the maximum, for the whole duration. */
  lemma ContractRecruits(t: TS, now: Time, order: seq<Key>)
    requires Enumerates(order, t.s.users.Keys)
    ensures var u := StartContract(t, now, order);
            && u.s.world.contract.Some? && u.s.users == t.s.users
            && var c := u.s.world.contract.value;
               && c.endsAt == now + t.s.rules.contractDuration && !c.failed && c.droppedBy.None?
               && (forall k :: k in c.participants ==> k in t.s.users && t.s.users[k].connected)
               && Distinct(c.participants) && |c.participants| <= t.s.rules.contractMax
               && (|c.participants| < t.s.rules.contractMax ==>
                     forall k :: k in t.s.users && t.s.users[k].connected ==> k in c.participants)
  {
    LinkedApart(t.s.users, order);
    var linked := ConnectedIn(t.s.users, order);
    var picked := linked[..Min(|linked|, t.s.rules.contractMax)];
    assert forall k :: k in picked ==> k in linked;
    if |picked| < t.s.rules.contractMax { assert picked == linked; }
  }

  // ---- Raids ----

  /** A raid comes thirty minutes after its warning: a tick before that leaves it alone, one after it resolves it. */
  lemma RaidsWarn(t: TS, now: Time, later: Time, order: seq<Key>)
    ensures var u := StartRaid(t, now);
            var v := ResolveRaid(u, later, order);
            && u.out == t.out + [RaidAlert]
            && if later < now + 30 * MINUTE then v == u
               else |v.out| == |u.out| + 1 && u.out <= v.out
                    && (v.out[|u.out|].RaidEmpty? || v.out[|u.out|].RaidDown? || v.out[|u.out|].RaidHolds?)
  {
    hide TeamWins, AdvanceTeam, PayTeam;
  }

  /** Levels and gear make a runner count for more in a raid, and so does Ghostline; on-level gear matches the wall. */
  lemma RaidStrength(p: Runner, q: Runner)
    ensures q == p.(level := q.level, equipment := q.equipment)
            && q.level + EquipmentRating(q.equipment) > p.level + EquipmentRating(p.equipment) ==>
              RaidPower(q) > RaidPower(p)
    ensures RaidPower(p.(faction := Ghostline)) > RaidPower(p.(faction := Chrome))
            == RaidPower(p.(faction := Nomad)) == RaidPower(p.(faction := Unaffiliated))
    ensures q.level == p.level ==> RaidWall(q) == RaidWall(p)
    ensures EquipmentRating(p.equipment) == Gear.ExpectedRating(p.level) && p.faction != Ghostline ==>
              RaidPower(p) == RaidWall(p)
  {
    hide EquipmentRating, Gear.ExpectedRating;
  }

  /** Percent of the wall a team of the size has to bring per point rolled: five less for each more, to six. */
  function Share(size: nat): int
    requires size > 0
  {
    if size >= 6 then 75 else 105 - 5 * size
  }

  lemma RollIs(power: int, wall: int, roll: int, size: nat)
    requires size > 0
    ensures RaidWon(power, wall, roll, size) <==> 10000 * power >= roll * (wall * Share(size))
  {
    assert Teamwork(size) == Share(size);
    assert wall * roll * Share(size) == roll * (wall * Share(size)) by { Reorder(wall, roll, Share(size)); }
  }

  lemma Reorder(a: int, b: int, c: int)
    ensures a * b * c == b * (a * c)
  {
  }

  /** What a team has to bring at the given roll. */
  lemma TeamNeeds(s: State, team: seq<Key>, rng: Rng)
    requires team != [] && forall k :: k in team ==> k in s.users
    requires TeamWall(s.users, team) > 0
    ensures var power, wall := 10000 * TeamPower(s.users, team), TeamWall(s.users, team) * Share(|team|);
            && (power >= 130 * wall ==> TeamWins(s.(rng := rng), team))
            && (TeamWins(s.(rng := rng), team) ==> power >= 55 * wall)
            && (Draw(rng, 76) == 75 && TeamWins(s.(rng := rng), team) ==> power >= 130 * wall)
            && (Draw(rng, 76) == 0 && power >= 55 * wall ==> TeamWins(s.(rng := rng), team))
  {
    hide TeamPower, TeamWall, RaidWon, Share;
    var wall, d := TeamWall(s.users, team) * Share(|team|), Draw(rng, 76);
    RollIs(TeamPower(s.users, team), TeamWall(s.users, team), 55 + d, |team|);
    WallStands(TeamWall(s.users, team), |team|);
    ProductGrows(55, 55 + d, wall);
    ProductGrows(55 + d, 130, wall);
  }

  lemma WallStands(wall: nat, size: nat)
    requires size > 0
    ensures wall * Share(size) >= 0
  {
  }

  /** A roll is between 55 and 130 percent: covering the worst wins every raid, missing the best loses every one. */
  lemma RollsDecide(s: State, team: seq<Key>)
    requires team != [] && forall k :: k in team ==> k in s.users
    requires TeamWall(s.users, team) > 0
    ensures var power, wall := 10000 * TeamPower(s.users, team), TeamWall(s.users, team) * Share(|team|);
            && ((forall rng :: TeamWins(s.(rng := rng), team)) <==> power >= 130 * wall)
            && ((exists rng :: TeamWins(s.(rng := rng), team)) <==> power >= 55 * wall)
  {
    hide TeamPower, TeamWall, TeamWins, Share;
    var power, wall := 10000 * TeamPower(s.users, team), TeamWall(s.users, team) * Share(|team|);
    forall rng
      ensures power >= 130 * wall ==> TeamWins(s.(rng := rng), team)
      ensures TeamWins(s.(rng := rng), team) ==> power >= 55 * wall
    {
      TeamNeeds(s, team, rng);
    }
    var worst, best: Rng := [75], [0];
    TeamNeeds(s, team, worst);
    TeamNeeds(s, team, best);
  }

  // ---- Scars ----

  /** An incident that scars leaves its own scar at the end, once, and takes none away; any other leaves them alone. */
  lemma ScarsCome(p: Runner, kind: nat, event: CityEvent, now: Time, r: Rules)
    ensures IceWon(p, true, r).scars == Scarred(p, GhostSignal) && IceWon(p, false, r).scars == p.scars
    ensures IceLost(p, true, r).scars == Scarred(p, BurnedOptic) && IceLost(p, false, r).scars == p.scars
    ensures Won(p, kind, true, r).scars == Scarred(p, SyntheticAdrenalGland) && Won(p, kind, false, r).scars == p.scars
    ensures Lost(p, kind, r).scars == p.scars && Settled(p, true, r).scars == p.scars
    ensures EventHit(p, event, true, now).scars
            == (if event == CorporateSweep then Scarred(p, CorporateBackdoor) else p.scars)
    ensures EventHit(p, event, false, now).scars == p.scars
  {
    hide LevelDuration, ClampHeat, StanceHeat, StanceReward, ProgressChange, Overclocked, DamagedDrone, CollisionLoss,
      AppendUnique, Scarred;
    OneScar(p, GhostSignal);
    OneScar(p, BurnedOptic);
    OneScar(p, SyntheticAdrenalGland);
    OneScar(p, CorporateBackdoor);
  }

  lemma OneScar(p: Runner, scar: Scar)
    ensures AppendUnique(p.scars, [scar]) == Scarred(p, scar)
  {
    var one := [scar];
    assert one[..|one| - 1] == [];
    assert AppendUnique(p.scars, []) == p.scars;
  }

  /** One corporate sweep in twenty leaves a backdoor. */
  lemma SweepsScar(s: State, k: Key, now: Time)
    requires k in s.users
    ensures var t := HitAt(s, k, CorporateSweep, now);
            && k in t.users
            && if Draw(s.rng, 20) == 0 then CorporateBackdoor in t.users[k].scars
               else t.users[k].scars == s.users[k].scars
  {
    hide ClampHeat, ProgressChange, AppendUnique;
    OneScar(s.users[k], CorporateBackdoor);
  }

  function Scarred(p: Runner, scar: Scar): seq<Scar> { if scar in p.scars then p.scars else p.scars + [scar] }

  // ---- What teams and finders get ----

  /** Raids, contracts and dead drops won pay at least a minute; lost, a raid costs a minute and a contract two. */
  lemma TeamsPay(p: Runner, r: Rules)
    ensures Raided(p, true, r).progress >= p.progress + 60 && Raided(p, false, r).progress <= p.progress - 60
    ensures Settled(p, true, r).progress >= p.progress + 60 && Settled(p, false, r).progress <= p.progress - 120
    ensures Shard(p, r).progress >= p.progress + 60
  {
    hide LevelDuration, ClampHeat;
  }

  /** The amount is the nth part of the whole, rounded down, but at least so much. */
  predicate PartOf(amount: int, whole: int, n: nat, least: int) {
    amount >= least && n * (amount + 1) > whole && (amount > least ==> n * amount <= whole)
  }

  /** What teams win and lose is a part of the time their runners' levels take. */
  lemma TeamParts(p: Runner, r: Rules)
    ensures var d := LevelDuration(r, p.level);
            && PartOf(Settled(p, true, r).progress - p.progress, d, 6, 60)
            && PartOf(p.progress - Settled(p, false, r).progress, d, 4, 120)
            && PartOf(Raided(p, true, r).progress - p.progress, d, 8, 60)
            && PartOf(p.progress - Raided(p, false, r).progress, d, 12, 60)
            && PartOf(Shard(p, r).progress - p.progress, d, 10, 60)
  {
    hide LevelDuration, ClampHeat;
  }

  /** So is what runners win and lose by themselves, before stance, faction, district and kind of bout. */
  lemma OwnParts(p: Runner, scarred: bool, r: Rules)
    ensures var d := LevelDuration(r, p.level);
            && PartOf(Won(p, 0, scarred, r).progress - p.progress, d, 20, 30)
            && (p.faction != Nomad ==> PartOf(p.progress - Lost(p, 0, r).progress, d, 24, 20))
            && (p.stance == Normal && p.faction != Chrome ==>
                  PartOf(IceWon(p, scarred, r).progress - p.progress, d, 20, 10))
            && (p.faction != Nomad && p.district != GhostQuarter ==>
                  PartOf(p.progress - IceLost(p, scarred, r).progress, d, 30, 5))
  {
    hide LevelDuration, ClampHeat, AppendUnique, StanceHeat, DamagedDrone;
  }

  /** And what a day on the link pays. */
  lemma DayPart(t: TS, k: Key, now: Time)
    requires k in t.s.users && StreakStep(t, k, now).out != t.out
    ensures var p, u := t.s.users[k], StreakStep(t, k, now).s;
            k in u.users && PartOf(u.users[k].progress - p.progress, LevelDuration(t.s.rules, p.level), 4, 120)
  {
    hide LevelDuration, DisplayName;
  }

  /** Nomad never loses more of a bout than anybody else, and less unless the stakes are halved. */
  lemma NomadLosesLess(p: Runner, kind: nat, r: Rules)
    ensures Lost(p.(faction := Nomad), kind, r).progress >= Lost(p.(faction := Chrome), kind, r).progress
            == Lost(p.(faction := Unaffiliated), kind, r).progress == Lost(p.(faction := Ghostline), kind, r).progress
    ensures kind != 1 ==> Lost(p.(faction := Nomad), kind, r).progress > Lost(p.(faction := Chrome), kind, r).progress
  {
    hide LevelDuration, ClampHeat, DamagedDrone;
  }

  /** A dead drop is claimed once: afterwards no text claims anything until another code is broadcast. */
  lemma OneShardPerDrop(s: State, first: Op, later: State, next: Op)
    requires first.OpClaimDeadDrop? && next.OpClaimDeadDrop?
    requires ClaimHit(s, first.identity, first.nick, first.channel, first.text, first.now, first.order).Some?
    requires later.world.deadDrop == Apply(s, first).world.deadDrop
    ensures Apply(later, next) == later
  {
    hide Find, Advance, LevelMsgs, Queue, Stored, LastOf, ClaimHit;
    NoDropNoHit(later, next.identity, next.nick, next.channel, next.text, next.now, next.order);
  }

  lemma NoDropNoHit(s: State, identity: Option<Key>, nick: Name, channel: Name, text: string, now: Time,
                    order: seq<Key>)
    ensures s.world.deadDrop.None? ==> ClaimHit(s, identity, nick, channel, text, now, order).None?
  {
    hide Find;
  }

  // ---- Districts ----

  /** Runners drift when their interval is over, always elsewhere, and not again for a whole interval. */
  lemma DriftsElsewhere(t: TS, k: Key, now: Time)
    requires k in t.s.users
    ensures var p, u := t.s.users[k], DriftStep(t, k, now);
            && k in u.s.users
            && var q := u.s.users[k];
               if Due(p.nextDistrictAt, now) then
                 && q.district != p.district && q.nextDistrictAt == now + t.s.rules.districtInterval
                 && u.out == t.out + [Drift(DisplayName(p), p.district, q.district)]
               else u == t
  {
    hide DisplayName;
  }

  /** The draw decides where to, and any other district is some draw's. */
  lemma DriftsAnywhere(t: TS, k: Key, now: Time, d: District) returns (rng: Rng)
    requires k in t.s.users && Due(t.s.users[k].nextDistrictAt, now) && d != t.s.users[k].district
    ensures var u := DriftStep(t.(s := t.s.(rng := rng)), k, now).s;
            k in u.users && u.users[k].district == d
  {
    hide DisplayName, OtherDistrict;
    var i := Reached(t.s.users[k].district, d);
    rng := [i];
  }

  lemma Reached(c: District, d: District) returns (i: nat)
    requires c != d
    ensures i < 4 && OtherDistrict(c, i) == d
  {
    i := if OtherDistrict(c, 0) == d then 0 else if OtherDistrict(c, 1) == d then 1
      else if OtherDistrict(c, 2) == d then 2 else 3;
  }

  /** After an encounter the next is a whole interval off. */
  lemma EncountersApart(t: TS, k: Key, now: Time, champion: Faction)
    requires k in t.s.users && Due(t.s.users[k].nextEncounterAt, now)
    ensures var u := EncounterStep(t, k, now, champion).s;
            k in u.users && u.users[k].nextEncounterAt == now + t.s.rules.encounterInterval
  {
    hide RareLoot, LootSlot, IceWinChance, IceWon, IceLost, DisplayName, Advance, LevelMsgs, Queue;
    var u := Encounter(t, k, champion).s;
    LootRules(t, k, champion);
    TimersStand(Rearmed(u.users[k], now, u.rules), now, u.rules);
  }

  lemma LootRules(t: TS, k: Key, champion: Faction)
    requires k in t.s.users
    ensures k in Encounter(t, k, champion).s.users && Encounter(t, k, champion).s.rules == t.s.rules
  {
    hide FreshArtifact, Unclaimed, RareLootChance, IceWinChance, IceWon, IceLost, DisplayName;
  }

  lemma TimersStand(p: Runner, now: Time, r: Tuning)
    ensures Advance(p, now, r).nextEncounterAt == p.nextEncounterAt
  {
    hide LevelLoop;
  }
}
