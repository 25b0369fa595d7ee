# Neon Grid

A Dafny model of the Neon Grid engine, the idle cyberpunk game a bot runs on an IRC channel, with its store and
its reply limiter, and proofs of what the game promises.

Runners earn a second of progress for every second linked. The model covers their accrual, levels and gear; how
they join, bind, rename, merge and are pruned; contracts, crash windows, raids, city events, encounters,
collisions and theft; the artifacts, of which one each exists; the announcements; and the saving of all of it.

## How it is built

- `Grid`, `Progression`, `Gear`, `StoreRows`, `Rivals`: the values of the game and the arithmetic on them.
- `Machine`: the engine as a state machine, one function per public operation. A random draw is taken from the
  head of `rng`, and every order in which a map may be walked is an `order`, so a statement about all states and
  arguments is one about all draws and orders. Time is an integer of nanoseconds; 0 is Go's zero time.
- `Players`, `Stores`, `Engines`: the same engine as the program has it, objects updated in place by loops over
  maps. Every method is proved to take the state where the function of `Machine` takes it. `Sessions` puts the
  public methods together: whatever is called, one step of the state machine is taken.
- `Limiter`: the cooldown table as an object, and the runs of it.
- `Invariants`, `Operations`, `Economy`, `Ticks`, `Restarts`, `Runs`: the invariant, kept by every operation and
  so in every state of every run.
- `Paths`: under which key a runner goes on, through renames and migrations.
- `Conservation`, `Losses`, `Ledger`, `Accounts`, `Contracts`, `Windows`, `Watch`, `Roster`, `News`, `Raids`,
  `Feuds`, `DeadDrops`, `Ranking`, `Frames`: what holds over whole runs.
- `Arrivals`, `Nicks`, `Cooling`, `Streaks`, `StreakRuns`, `Bouts`, `Odds`, `Stakes`, `Retention`, `Merges`: what
  each operation answers, said of its effects and not of the function that computes them. `Upheavals` has what the
  world events leave alone.
- `Backlog`, `Traces`, `Announcements`: the queue of announcements, the exact use each operation makes of it, and
  what follows for whole runs.
- `Witnesses`: concrete states in which the game falls short.

`dafny verify dfyconfig.toml` checks everything. Long proofs are split into lemmas that `hide` the function
bodies they do not need.

## What the proofs found

- An artifact can fall out of circulation for good: when the guest who holds it is pruned, when a data leak
  renames an artifact deck (its release then names nothing the registry knows), and when a merge prefers the
  other record's item. `Losses.OpConserves` says these are the only ways, `Losses.ClaimedIffHeld` that claimed
  means held otherwise, and `Witnesses` shows each of the three happen.
- The store keeps window times to the second, so after a restart the next crash window can come up to a second
  less than seven days after the last. `Windows.ShortExactly` says when, and `Windows.EarlyWindow` is such a run.
- A runner who is already linked and joins again loses the fraction of a second it carried; a restart loses what
  was not credited since the last advance. `Accounts.LedgerOfRun` counts both.
- Renames and migrations leave the owner column of the registry as it was. No statement here reads it.
- Merging a guest into an account that sits on the same contract leaves the account two seats, and two shares
  (`Witnesses.TwoSeatsTwoShares`).
- Merging ranks the two records by level first, so an account that is ahead by level but deep in penalties makes the
  guest's progress vanish, although a guest is promised to migrate without losing any. `Merges.MergeLosesExactly`
  says when, and `Merges.DebtLosesProgress` is such a pair.
- A restart drops the announcements that wait; `Announcements.AnnouncedOnce` counts them with those an overflow
  pushes out.

## Model

| member | source | states |
|---|---|---|
| Runs.RunKeeps | internal/game/game.go:357-951 | Every state of every run of public operations and restarts satisfies one invariant: keys name their runners, one holder per artifact and a claim behind every holder, aliases distinct, store and memory in step |
| Runs.OneOfEachArtifact | README.md:57 | In every reachable state each slot's artifact has at most one holder, who has it registered and at most eight levels from burning out |
| Runs.StoreMirrorsMemory | internal/game/game.go:1589-1598 | After every operation the store's rows are exactly the saved form of memory's runners, and so are the saved schedule, contract, raid, dead drop and recent events of the world; faction-week scores and bulletin counts, which wait for the next save, are not among these fields |
| Runs.KeysNameRunners | internal/game/game.go:353-421 | Map keys equal their runners' identities, guests sit under guest keys, and no two runners share an alias in any letter case |
| Paths.OnlyPruningForgets | internal/game/game.go:809-815 | Whoever is known before an operation is known afterwards, under the key a rename or migration gave it, unless a tick prunes it |
| Paths.RunnersStayApart | internal/game/game.go:702-737 | Two runners come to share a key only when an operation merges one of them into the other; no rename makes them |
| Runs.BootKeeps | internal/game/game.go:245-351 | An engine started on an empty store satisfies the invariant |
| Economy.AwardKeeps | internal/game/game.go:1317-1342 | A drop keeps one holder per artifact: it equips only what nobody has claimed, hence nobody holds |
| Economy.RetireKeeps | internal/game/game.go:1346-1353 | Burn-out takes the artifact off its only holder together with its registry entry |
| Economy.AbandonKeeps | internal/game/game.go:1357-1375 | Releasing an absent runner's artifacts keeps the invariant and is saved exactly when something was released |
| Economy.StealKeeps | internal/game/features.go:473-497 | A theft keeps one holder per artifact and the claim behind it |
| Economy.BurnSlotFresh | internal/game/game.go:1380-1407 | Checking a slot for burn-out leaves in it, if any artifact, one with levels left; elsewhere only a fresh drop may appear |
| Economy.BurnOutLeavesLively | internal/game/game.go:1380-1407 | After the burn-out pass every artifact the runner holds has levels left, salvage included |
| Ticks.TickKeeps | internal/game/game.go:770-865 | A whole tick, with any draws and any map order, keeps the invariant and leaves the world saved |
| Ticks.TickLeavesLively | internal/game/game.go:770-865 | At the end of a tick every linked runner's artifacts burn out at a level above its own |
| Ticks.TheftKeepsLife | internal/game/features.go:473-497 | A tick's collision, theft included, leaves every artifact somebody held with its name and exactly the levels it had left, and brings in no other: the minimum of one level never decides |
| Ticks.StealConserves | internal/game/features.go:473-497 | Name and gear change hands, and the remaining lifespan is kept if and only if there is one |
| Operations.MigratedGear | internal/storage/storage.go:431-435 | Each artifact of a merged runner comes from one of the two records, with no more levels left than it had there |
| Operations.MigrateShape | internal/game/game.go:363-392 | Migration merges the guest's and the account's current records, never a stale row, and drops the guest from memory, store and contract alike |
| Operations.MigrateKeeps | internal/game/game.go:363-392 | Migration keeps the invariant |
| Losses.OpConserves | internal/game/game.go:809-815 | An operation puts an artifact out of circulation exactly if it prunes its holder, leaks a held deck, or merges it away; every other operation, burn-out, theft, rename and restart included, loses none and recovers none |
| Losses.TickConserves | internal/game/game.go:770-865 | For a tick: lost afterwards exactly if lost before, or a pruned guest held it, or a data leak hit the linked holder of the deck |
| Losses.JoinConserves | internal/storage/storage.go:405-461 | For a join: lost exactly if the merge prefers the other record's item in the artifact's slot |
| Losses.LostExactlyWhenLosing | internal/game/game.go:1317-1407 | Over a whole run an artifact is claimed but held by nobody under its name exactly if some step lost it, and then it stays so |
| Losses.ClaimedIffHeld | internal/game/game.go:1317-1407 | Since the store was empty, an artifact is claimed if and only if exactly one runner holds it under its name, unless a step lost it for good |
| Losses.LeakedReleaseFreesNothing | internal/game/game.go:1794-1808 | Releasing an artifact deck whose name a data leak changed frees no registry entry |
| Witnesses.PruningLosesForGood | internal/game/game.go:809-815 | A concrete forgotten guest whose deck stays claimed without a holder after the tick that prunes it |
| Witnesses.LeakLosesForGood | internal/game/game.go:1794-1808 | A concrete tick whose data leak leaves the deck of a linked runner claimed under a name nobody holds |
| Witnesses.MergeLosesForGood | internal/storage/storage.go:431-435 | A concrete join in which the account's better deck displaces the guest's artifact for good |
| Witnesses.TwoSeatsTwoShares | internal/game/game.go:1740-1752 | A concrete join after which one runner has both seats of a contract, and is paid two shares, the second at the level the first brought it to |
| Progression.SamplingIndependent | internal/game/game.go:1052-1093 | Advancing a linked runner to one instant and then another gives the record that one advance to the later instant gives, through remainders, Heat clamping, level-ups and gear |
| Progression.ElapsedSplits | internal/game/game.go:1069-1077 | Counting whole units over two adjacent intervals with a carried remainder loses nothing |
| Progression.LevelLoopKeeps | internal/game/game.go:1080-1093 | The level loop keeps lifetime progress, never lowers the level, and leaves less than the next level's duration |
| Progression.LevelLoopInverts | internal/game/game.go:1080-1082 | A level above the start is reached exactly when lifetime progress pays its cumulative cost |
| Progression.CumulativeClosedForm | internal/game/game.go:971-980 | The cumulative cost of a level is the quadratic in the level that base and step give |
| Progression.LevelLoopAbsorbs | internal/game/game.go:1080-1093 | Topping the meter up commutes with the level loop |
| Gear.ExpectedGearRating | internal/game/game.go:1134-1140 | The summing loop computes the rating of a standard loadout |
| Gear.GearStabilises | internal/game/game.go:1080-1093 | From any gear without artifacts, five level-ups bring the rating to the one expected of the level |
| Gear.FreshGearIsStandard | internal/game/game.go:1130-1140 | From no gear at level 1 the rating is the expected one at every level |
| Gear.LevelLoopFits | internal/game/game.go:1083-1093 | What a level loop does to gear depends on the levels gained alone |
| Gear.LevelLoopStabilises | internal/game/game.go:1080-1093 | The same of one whole advance, however many levels it gains |
| Ledger.AdvanceEarns | internal/game/game.go:1069-1082 | An advance credits exactly the whole connected seconds since the last, level-ups included, and nothing offline |
| Ledger.TickNoted | internal/game/game.go:770-865 | A tick changes a runner's lifetime progress by the seconds its clock moved on and by its own shares alone: its contract seats, its raid share, the city event's amount for it, its one turn and the collision |
| Ledger.SettleAllBooks | internal/game/game.go:1695-1713 | A resolved contract awards or charges a runner once for every seat it has, each time at the level reached by then, whoever else is on the team and in whatever order |
| Ledger.RaidNoted | internal/game/features.go:299-311 | A raid that is due awards or charges a linked runner one share, at its level once caught up, and an offline one nothing |
| Ledger.EventNoted | internal/game/game.go:1620-1645 | A city event moves a linked runner's meter once, by the amount for its build and district once caught up, and an offline one's not at all |
| Ledger.WalkNoted | internal/game/game.go:808-858 | The walk brings a runner the streak and encounter of its one turn, and nothing at anybody else's |
| Ledger.BoutMoved | internal/game/game.go:1235-1260 | A bout moves the winner's and the loser's meters by the kind's amounts and nobody else's; theft moves none |
| Accounts.OpBalances | internal/game/game.go:357-768 | Over one operation, a rename to another key included, a runner's account balances to the nanosecond: the time on its clock is credited, still carried, or discarded by a cut link or a restart, and the rest of what it earned is its award |
| Accounts.RestartCreditsNothing | internal/game/game.go:288-321 | A restart brings every runner back offline with the lifetime progress it had |
| Accounts.LedgerOfRun | internal/game/game.go:1052-1093 | An equation for whole runs, followed through renames and restarts: lifetime progress beyond awards, plus what is on the clock, plus what was discarded, is exactly the time linked |
| Accounts.DiscardFits | internal/game/game.go:1069-1073 | Time is never discarded twice, and a cut link discards less than a second of it |
| Accounts.LevelsNeverDrop | internal/game/game.go:1080-1093 | No sequence of operations lowers a runner's level, restarts included, followed through renames and into the account it is merged with |
| Contracts.FailedIffDropped | internal/game/game.go:1724-1752 | While it runs a contract keeps its deadline, each seat is held by the runner recruited for it under whatever key it goes on, and it is failed exactly if one of the recruits left by its own doing; netsplits and bot outages never fail it |
| Contracts.ContractOutcome | internal/game/game.go:1680-1722 | The contract resolves at the first tick at or after the deadline or after a drop, and completes exactly if no recruit dropped since and all of them, followed through their keys, are linked then |
| Contracts.DropperNamed | README.md:80 | Whoever leaves a running contract by its own doing fails it, and the tick that resolves it says so by its name; whoever leaves after that is not named |
| Contracts.TickParticipants | internal/game/game.go:808-815 | A tick makes a participant unresolvable only by pruning an offline guest |
| Contracts.OthersKeepParticipants | internal/game/game.go:1740-1752 | Every other operation keeps every participant of a running contract resolvable |
| Windows.WindowsApart | internal/game/game.go:867-893 | Crash windows never overlap and start at least seven days apart, across restarts too if the earlier one opened on a whole second, and never a second less |
| Windows.ScheduleStands | internal/game/game.go:877-893 | Until the next one opens, the next window stays scheduled as drawn, rounded down to the second if anything was restarted |
| Windows.ShortExactly | internal/storage/storage.go:494-505 | The next window is scheduled under seven days after the last exactly if there was a restart since, no extra day was drawn, and the last one opened off the whole second |
| Windows.EarlyWindow | internal/storage/storage.go:494-505 | A concrete run since the empty store in which two windows open a nanosecond less than seven days apart |
| Windows.OneRespecPerWindow | internal/game/game.go:543-575 | Between two accepted faction commands of the same runner, renamed in between or not, a crash window opens, restarts or not |
| Windows.FactionFixedOutsideWindows | internal/game/game.go:555-564 | A faction once chosen changes only by an accepted command inside an open window the runner has not used |
| Roster.ReconcileExact | internal/game/game.go:659-695 | A roster check treats each runner by itself, in whatever order: dropped exactly if missing for the whole grace period |
| Roster.DropIsFree | internal/game/game.go:678-687 | A roster drop costs the link only: meter, level and Heat are what time alone makes them |
| Watch.DropTakesGrace | internal/game/game.go:659-695 | Over a run, a check drops a runner only if an earlier check at least the grace period ago missed it and every check since did too |
| Watch.SightingResets | internal/game/game.go:665-669 | One sighting, or the bot leaving the channel, starts the count anew |
| News.RecentIsLastTwenty | internal/game/game.go:1589-1598 | Recent events are always the last twenty of everything ever remembered, restarts included |
| News.TickDelivers | internal/game/game.go:770-865 | A tick hands over everything that waited right after its world events |
| Announcements.OpQueues | internal/game/game.go:1024-1048 | Every operation leaves the backlog as its own trace of level-ups and deliveries computes it, and the level announcements a tick returns are exactly those delivered, in order |
| Announcements.BacklogOfRun | internal/game/game.go:1037-1048 | Over a whole run the backlog is what the traces leave waiting, never more than fifty, and the level announcements of all ticks are, in order, what was taken from it |
| Announcements.AnnouncedInOrder | internal/game/game.go:1037-1048 | Over a whole run level-ups are announced in the order they were queued, each at most once, with what waits behind them |
| Announcements.AnnouncedOnce | internal/game/game.go:1037-1048 | Every level-up queued is announced exactly once or still waits precisely if no overflow pushed one out and no restart dropped one |
| Announcements.LevelsAnnounced | internal/game/game.go:1024-1031 | Over an operation other than a merge a runner gains exactly the levels queued for it, so no level-up goes unannounced and none is invented |
| Announcements.LevelsOfRun | internal/game/game.go:1080-1101 | Over a whole run, renames included, a runner's level is the one it had plus the levels queued for it |
| Limiter.Cooldowns.AllowAll | internal/irc/ratelimit.go:35-54 | Grants every key or none, sweeps stale entries only from a large table, and stamps exactly on a grant |
| Limiter.Cooldowns.Forget | internal/irc/ratelimit.go:43-49 | Deleting while walking the table leaves exactly the entries at most ten minutes old |
| Limiter.Cooldowns.Allow | internal/irc/ratelimit.go:29-31 | The single-key form, stated for its key |
| Limiter.CacheRefinesLedger | internal/irc/ratelimit.go:35-54 | Over any run the bounded table is the unbounded one minus entries too old to deny anything |
| Limiter.AnswersAgree | internal/irc/ratelimit.go:35-54 | Every answer is the one a table that never forgets would give |
| Limiter.GrantsApart | internal/irc/ratelimit.go:35-54 | Two grants that share a key are at least the later call's cooldown apart |
| Limiter.GrantBoundsTable | internal/irc/ratelimit.go:43-53 | After a grant the table has at most 512 entries and the call's keys, or every entry is recent |
| Raids.NewcomerNeverHurts | internal/game/features.go:278-298 | For a fixed roll, a runner joining a team that wins never makes it lose if its power-to-wall ratio is at least the team's |
| Raids.SixAlwaysWin | internal/game/features.go:295-298 | Six or more whose power covers their wall win on every roll; five need not |
| Raids.SixGearedWin | internal/game/features.go:278-298 | Six or more linked runners with on-level gear or better bring every raid down |
| Raids.SumsUnordered | internal/game/features.go:280-291 | Team power and wall are the same in every order |
| Raids.RaidReaches | internal/game/features.go:272-321 | A raid catches up and pays or charges every linked runner once and touches nobody else |
| Raids.RaidUnordered | internal/game/features.go:272-321 | Neither the raid's outcome nor what it makes of any runner depends on the order in which the map is walked |
| Rivals.FindTopRival | internal/game/features.go:461-469 | One walk in any order finds the smallest identity among those with the most bouts, if at least five |
| Rivals.BeforeOrders | internal/game/features.go:461-469 | Identities are totally ordered as strings |
| Rivals.TopUnique | internal/game/features.go:461-469 | There is at most one top rival |
| Feuds.RivalryIsMutual | internal/game/game.go:1219-1220 | With even counts a collision is a rivalry exactly if each is the other's top rival, whichever of the two initiates, and both are in the same round |
| Feuds.RecordStaysEven | internal/game/features.go:447-457 | Recording a bout keeps counts even |
| Feuds.BoutsStayEven | internal/game/features.go:447-457 | While nobody's identity changes or vanishes, any two runners count the same bouts against each other after any run |
| DeadDrops.StripReadsCode | internal/game/features.go:195-209 | Stripping the noise off a broadcast leaves the five-letter code |
| DeadDrops.StrippedClaims | internal/game/features.go:213-238 | While the frequency is open a linked runner claims the drop with the stripped broadcast and with no other text |
| Ranking.TopRanksMemory | internal/game/game.go:753-768 | The rows the store ranks are the runners first in line in memory, everybody linked caught up to now |
| Operations.RenameOverwritesNobody | internal/game/game.go:697-737 | A rename never touches another runner's record, whatever name it takes |
| StoreRows.AppendUniqueIs | internal/storage/storage.go:463-477 | appendUnique keeps what was there in front, adds what is new, and repeats nothing |
| Restarts.RestartKeeps | internal/game/game.go:245-351 | A restart keeps the invariant and brings back every runner, offline, with name, gear, claims, contract and schedule as saved |
| Players.Player.Advance | internal/game/game.go:1052-1101 | The record becomes its advanced value, and the level-up announcement is the one due |
| Players.Player.Clock | internal/game/game.go:1064-1079 | Accrual and cooling in place |
| Players.Player.LevelUp | internal/game/game.go:1080-1093 | The level-up loop on level, meter and gear, with its termination |
| Players.Player.AddScar | internal/game/game.go:1420-1435 | A scar is added at the end unless already there |
| Players.Player.TakeEvent | internal/game/game.go:1620-1641 | What a city event does to a runner |
| Players.Player.OverclockDeck | internal/game/game.go:1794-1808 | A data leak overclocks whatever is in the deck slot, artifacts included |
| Players.Player.DamageDrone | internal/game/game.go:1252-1259 | A drone incident wears a drone that is no artifact and not worn out |
| Players.Player.BeatIce | internal/game/game.go:1168-1178 | Rewards, Heat and scar of a won encounter |
| Players.Player.LoseToIce | internal/game/game.go:1188-1201 | Losses, Heat and scar of a lost encounter |
| Stores.MergeRows | internal/storage/storage.go:405-461 | The in-place merge computes the specified merge of the two records |
| Stores.MergeEquipment | internal/storage/storage.go:431-435 | Slot by slot in any order, the better-rated item wins, the account's on a tie |
| Stores.AppendScars | internal/storage/storage.go:463-477 | The nested loops compute the append of what is new |
| Stores.MergeBouts | internal/storage/storage.go:454-459 | Bouts against the same rival add up |
| Stores.Store.MigrateGuest | internal/storage/storage.go:210-247 | One transaction over both rows: merged, saved under the account, the guest's row gone; nothing changed if there is neither |
| Stores.Store.Top | internal/storage/storage.go:249-264 | The rows in ranking order, as many as asked for and there are |
| Stores.Store.Save | internal/storage/storage.go:153-182 | A record is stored under its identity, times cut to the second |
| Stores.Store.ClaimRareItem | internal/storage/storage.go:189-196 | Only the first claim of a name is granted and recorded |
| Stores.Store.ReleaseRareItem | internal/storage/storage.go:199-202 | A released name, and no other, leaves the registry |
| Stores.Store.TransferRareItem | internal/storage/storage.go:205-208 | A claimed name gets its new owner; an unclaimed one stays unclaimed |
| Engines.New | internal/game/game.go:245-351 | Tuning out of range falls back to the defaults; loading, repairing and saving every row, then scheduling, reaches the state a restart specifies |
| Engines.Engine.Join | internal/game/game.go:363-421 | Finds, makes or migrates the runner and links it, as specified |
| Engines.Engine.Resume | internal/game/game.go:400-404 | Overdue timers are drawn anew in order, and a stale streak starts over |
| Engines.Engine.Migrate | internal/game/game.go:375-391 | Guest advanced, saved and merged; map, store and contract updated |
| Engines.Engine.Bind | internal/game/game.go:439-468 | Switches the other account's runner off, then joins; the failed contract is saved |
| Engines.Engine.SetAlias | internal/game/game.go:486-511 | Refuses an invalid or taken alias, else takes it |
| Engines.Engine.SetStance | internal/game/features.go:67-88 | Takes the stance of the runner found |
| Engines.Engine.SetFaction | internal/game/game.go:543-575 | Refuses as specified, else respecs and stamps the window |
| Engines.Engine.Activity | internal/game/game.go:577-601 | Charges chat on the game channel unless the pirate frequency is open |
| Engines.Engine.Disconnect | internal/game/game.go:603-632 | Charges, heats, unlinks and fails the contract, except for netsplits |
| Engines.Engine.DisconnectAll | internal/game/game.go:637-654 | Pauses everybody, in any order, without fault |
| Engines.Engine.Reconcile | internal/game/game.go:659-695 | The roster check over the whole map, its watch and the contract's save |
| Engines.Engine.Rename | internal/game/game.go:697-737 | Charges and renames; a guest moves key unless another guest owns it |
| Engines.Engine.Status | internal/game/game.go:739-751 | Catches the runner found up and saves it |
| Engines.Engine.Top | internal/game/game.go:753-768 | Everybody linked is caught up and saved, and the rows returned are the first of the store's in ranking order, ten unless told otherwise |
| Engines.Engine.Find | internal/game/game.go:994-1014 | Identity first, then live nick, then guest key |
| Engines.Engine.MarkAt | internal/game/game.go:1724-1738 | Fails a running contract of a participant, naming who dropped |
| Engines.Engine.Rekey | internal/game/game.go:1740-1752 | Every seat of the old identity goes to the new one, and says whether any did |
| Engines.Engine.RareLoot | internal/game/game.go:1317-1342 | Claims the first artifact from a random start that is free and not excluded, and fits it |
| Engines.Engine.RetireAt | internal/game/game.go:1346-1353 | Releases the name the slot holds and fits standard gear |
| Engines.Engine.Abandon | internal/game/game.go:1357-1375 | Releases every artifact of the runner and saves if any |
| Engines.Engine.BurnSlots | internal/game/game.go:1380-1407 | The burn-out pass over the slots in order |
| Engines.Engine.SwapTick | internal/game/game.go:867-885 | Closes or opens the crash window and saves the world |
| Engines.Engine.ResolveContract | internal/game/game.go:1680-1722 | Pays or charges every seat and clears the contract, when due |
| Engines.Engine.StartContract | internal/game/game.go:1650-1678 | Recruits up to the maximum of the linked runners |
| Engines.Engine.ResolveRaid | internal/game/features.go:272-321 | Musters the linked, rolls, and pays or charges them |
| Engines.Engine.CityEventTick | internal/game/game.go:795-805 | Draws and applies the due event and schedules the next |
| Engines.Engine.EventAll | internal/game/game.go:1620-1645 | The event reaches every linked runner, each saved |
| Engines.Engine.DrawCode | internal/game/features.go:197-206 | Letters and static are drawn alternately |
| Engines.Engine.ClaimDeadDrop | internal/game/features.go:213-238 | The first linked runner with the clean code is paid and announced |
| Engines.Engine.StreakStep | internal/game/features.go:325-346 | Another whole day on the link is paid once |
| Engines.Engine.Encounter | internal/game/game.go:1164-1202 | An ICE encounter with its rewards, losses and drop table |
| Engines.Engine.RunnerSteps | internal/game/game.go:808-858 | The walk over the runners, pruning while walking |
| Engines.Engine.Collide | internal/game/game.go:1204-1282 | A due collision: initiator, opponent, bout, theft, cooldown |
| Engines.Engine.Opponent | internal/game/features.go:417-445 | A rival in the pool has an even chance of being met, else anybody in the pool |
| Engines.Engine.Theft | internal/game/features.go:473-497 | The artifact changes hands with its lifespan and registry entry, as specified |
| Engines.Engine.Tick | internal/game/game.go:770-865 | The whole tick: messages, state and store as specified for some orders of the walks |
| Engines.Engine.QueueAll | internal/game/game.go:1037-1042 | The backlog keeps the newest fifty |
| Engines.Engine.Remember | internal/game/game.go:1589-1598 | The world keeps the newest twenty and is saved |
| Engines.Engine.Snapshot | internal/game/game.go:913-925 | Everybody as of now on copies, and the world as it is; nothing is written or consumed |
| Engines.Engine.RecentEvents | internal/game/game.go:929-943 | The newest events first, as many as asked for and there are |
| Sessions.Perform | internal/game/game.go:229-241 | Whatever is called on the engine, records and tables together take one step of the state machine |
| Sessions.Serve | internal/game/game.go:229-241 | A running engine in a state the invariant holds of stays in one, so the theorems about runs are about it |
| DeadDrops.CodesAreFive | internal/game/features.go:195-238 | A code has five letters and claims nothing once its frequency has closed, nor outside the game channel |
| Cooling.AdvanceCools | internal/game/game.go:1074-1077 | Linked time cools: Heat falls by one point for every whole interval the Heat clock moves on, down to none, and the clock stays less than an interval behind |
| Cooling.HeatFades | README.md:59 | A hundred intervals on the link leave no Heat |
| Cooling.LinkedIsSeen | internal/game/game.go:1052-1068 | Being linked is being seen; an offline runner's Heat, level, meter and gear stand still |
| Cooling.TroubleHeats | README.md:59 | Nick changes, quits, kicks, lost encounters and corporate sweeps heat a runner or leave it at the maximum; a netsplit does not, and a kick is no cooler than leaving |
| Cooling.OnlyTimeCools | internal/game/game.go:1575-1587 | No reward, setback, bout or city event ever lowers Heat |
| Cooling.LosingHeatsMore | internal/game/game.go:1695-1713 | Contracts, raids and bouts heat whoever took part, and losing them, or an encounter, heats more than winning |
| Arrivals.AbsorbsExactly | internal/game/game.go:473-484 | A join takes a guest off the books exactly if it is the first runner linked under the nick, or, with nobody linked under it, the guest of that nick and the nick is the account's own name |
| Arrivals.StrangersStay | internal/game/game.go:473-484 | Every other guest keeps its record and its row |
| Arrivals.JoinLeaves | internal/game/game.go:363-421 | Whoever is neither joining nor absorbed keeps its record |
| Arrivals.JoinLinks | internal/game/game.go:393-421 | Joining links the runner of the account, or of the nick, under the nick and account given, with its clocks starting now, in memory and in its row |
| Arrivals.OnlyOneFound | internal/game/game.go:994-1023 | A nick under which one runner alone is linked finds that runner in every walk |
| Arrivals.FindsWhom | internal/game/game.go:994-1023 | A known identity is its own runner whatever the nick; otherwise a nick is whoever is linked under it, else, with no identity given, the guest of that nick |
| Arrivals.NewcomersStartFresh | internal/game/game.go:982-992 | A newcomer starts at level 1 with an empty meter, no gear, no alias, and every timer a whole interval off |
| Arrivals.ReturnsAsLeft | internal/game/game.go:396-437 | Whoever comes back finds standing, gear, names and history as left; overdue timers are put into the later three quarters of their interval, the others stand, and the streak goes on exactly if it ran and the absence was no longer than an hour |
| Arrivals.BindSwitches | internal/game/game.go:439-471 | Identifying as another account takes the first account's runner off the Grid and links the other's |
| Nicks.RenameTakes | internal/game/game.go:697-737 | A linked runner who changes nick answers to the new one, in memory and in its row, under whatever key it goes on, and nobody else's nick changes |
| Nicks.RenamedIsFound | internal/game/game.go:697-737 | Unless somebody else is linked under the new nick, it then finds the renamed runner in every walk |
| Nicks.RenamedAnswers | internal/game/game.go:714-719 | A rename costs its penalty, draws Heat, and leaves level, gear, alias and account alone |
| Nicks.AliasTakes | internal/game/game.go:486-511 | An alias is taken exactly if it is valid or being cleared, the runner is known, and nobody else has it as alias or nick in any letter case; refusing changes nothing |
| Nicks.AliasShows | README.md:69 | What a runner is announced as is its alias, or its nick once the alias is cleared |
| Nicks.StanceTakes | internal/game/features.go:67-88 | A stance is taken by whoever is known and changes nothing else |
| Streaks.DaysArePaid | internal/game/features.go:325-346 | A running streak is paid and announced exactly if more full days were held than paid for, and afterwards all of them are paid for |
| Streaks.PaidOnce | internal/game/features.go:325-346 | Until another full day is held, asking again moves no meter and says nothing |
| Streaks.TickStreaks | internal/game/features.go:325-346 | Over a whole tick a linked runner's streak is paid exactly if a day is owed, and the runner is told by the name it goes by; otherwise it starts or stays as it was |
| StreakRuns.OnlyTicksPay | internal/game/game.go:393-412 | Any other operation leaves a streak alone, ends it, or starts one |
| StreakRuns.PaidAtMostDaily | README.md:78 | Over a whole run, as long as a streak runs, its paydays number at most the whole days since it began |
| StreakRuns.NetsplitsSpare | README.md:78 | A netsplit does not break a running streak exactly if the runner is back within the hour; leaving in any other way does |
| StreakRuns.OutagesSpare | README.md:78 | An outage of the bot does not break a running streak exactly if the runner is back within an hour of it |
| Bouts.StrengthDecides | internal/game/game.go:1219-1224 | The initiator wins on every draw exactly if its strength is the other's and four or more, the other exactly if its own is the initiator's and five or more; winning is a meter that rises, losing one that falls, and the announcement that names them so |
| Bouts.ImprovedStillWins | internal/game/game.go:1219-1224 | Against the same draws another level or rating point never turns a win into a loss, on either side |
| Bouts.StrengthGrows | internal/game/game.go:1284-1305 | Levels, ratings, Heat and an adrenal gland make stronger, a burned optic weaker |
| Bouts.BuildsFight | internal/game/game.go:1284-1305 | Ghostline is the strongest faction and any is stronger than none; the Floodline and the Arcology are the best districts to fight in and the Ghost Quarter the worst |
| Bouts.PoolIs | internal/game/features.go:417-445 | The pool is everybody else linked in the same district, or everybody else linked if there is nobody there |
| Bouts.RivalsMeet | internal/game/features.go:417-445 | A top rival in the pool is met on an even draw |
| Bouts.AnybodyMeets | internal/game/features.go:417-445 | Anybody in the pool is met on some draw |
| Bouts.BoutsScar | internal/game/game.go:1234-1237 | One win in twenty leaves an adrenal gland, and losing leaves no scar |
| Bouts.RivalryTakesFive | internal/game/features.go:447-471 | A rivalry takes five bouts and no more with anybody else on either side, and its round is their number |
| Bouts.BothCoolDown | internal/game/game.go:1274-1275 | After a bout both runners wait a whole interval for the next |
| Bouts.KindsDiffer | internal/game/game.go:1239-1252 | The second kind of bout pays double and charges half, the third charges double and pays half |
| Bouts.IncidentsWearDrones | internal/game/game.go:1253-1260 | Only a drone incident wears gear, and only a drone that is no artifact and not worn out: one tier, and it is marked damaged |
| Bouts.TheftHappens | internal/game/features.go:473-497 | A loser with artifacts loses one exactly on the twenty draws in a hundred below twenty |
| Odds.OnLevelOdds | README.md:55 | Odds stay between 10 and 95 percent, and on-level gear with nothing else to it wins 65 |
| Odds.GearHelps | internal/game/game.go:1145-1162 | Gear above standard never worsens the odds, and a rating point is worth three percent between the bounds |
| Odds.HeatHurts | internal/game/game.go:1145-1162 | Heat never improves the odds, and all of it costs twenty percent |
| Odds.StanceMoves | internal/game/features.go:98-106 | Cold is ten percent safer than normal and hot ten percent riskier |
| Odds.DistrictsMove | internal/game/game.go:1521-1532 | The Arcology is the best district to meet ICE in, Old Transit next, and the Ghost Quarter the worst, by five and ten percent |
| Odds.FactionsMove | internal/game/game.go:1145-1162 | Ghostline is ten percent better against ICE, and last week's champions five |
| Odds.ScarsMove | internal/game/game.go:1145-1162 | A ghost signal helps and a burned optic hurts, five percent each |
| Odds.DrawDecides | internal/game/game.go:1164-1202 | As many of the hundred draws as the odds say beat the ICE, which raises the meter and is announced so; the others lower it and are announced so |
| Odds.DropsAnnounced | internal/game/game.go:1164-1202 | A win announces an artifact exactly if one dropped, by its name, and the runner then has it |
| Odds.EncountersScar | internal/game/game.go:1164-1202 | One win in twenty-five leaves a ghost signal, one loss in twelve a burned optic, and nothing else does |
| Odds.StancesPay | internal/game/features.go:108-128 | Hot pays and heats half as much again, cold pays six tenths and heats half, each rounded down |
| Odds.ChromeWinsMore | README.md:53 | Chrome wins more of an encounter than anybody else |
| Odds.NomadLosesLess | README.md:53 | Nomad loses less of an encounter than anybody else, and the Ghost Quarter makes a loss worse |
| Odds.LootOdds | internal/game/game.go:1409-1418 | Heat only improves the odds of a drop, from 5 to 15 percent; hot doubles them and cold halves them |
| Odds.DropsExactly | internal/game/game.go:1317-1342 | A runner gets an artifact exactly if the draw is below the odds and there is one that may drop |
| Odds.ArtifactsRate | internal/game/game.go:1317-1342 | The rig is the best artifact of its level at four tiers above, deck and armor come next, implant and drone last at two |
| Odds.LootIs | internal/game/game.go:1317-1342 | What drops is claimed for the runner and rates two to four tiers above on-level gear with four to eight levels to live; without a drop nothing changes hands |
| Odds.TiersGrow | internal/game/game.go:1130-1132 | Gear starts at tier 1 and grows a tier every three levels |
| Stakes.PenaltiesGrow | internal/game/game.go:945-969 | Penalties never pay and grow with the level and the length; a netsplit is free |
| Stakes.PenaltiesScale | internal/game/game.go:945-969 | At level 1 a penalty is its configured base, and each level and each character adds the rate of its kind |
| Stakes.FreeWhileOpen | internal/game/game.go:577-601 | From the opening of a pirate frequency until its time has passed chat and actions are free; anything else said in the game channel costs its penalty, and nothing elsewhere does |
| Stakes.SpeakingIsSeen | internal/game/game.go:577-601 | Speaking in the game channel is being seen, and changes nothing but that and the meter |
| Stakes.DropsExpire | internal/game/features.go:240-248 | A dead drop is forgotten and announced as gone by the first tick after its frequency closes, and not before |
| Stakes.EventsPay | internal/game/game.go:1754-1792 | Leaks, bounties and runs pay everybody, blackouts, sweeps and wars cost everybody |
| Stakes.FactionsFeelEvents | internal/game/game.go:1754-1792 | A faction is better off than none exactly for Ghostline in sweeps, Nomad in wars, Chrome in bounties and runs, and never worse |
| Stakes.DistrictsFeelEvents | internal/game/game.go:1754-1792 | A district is worse than the Neon Market exactly for Old Transit in blackouts, the Arcology in sweeps and the Ghost Quarter in wars, and better exactly for the Floodline in leaks and the Arcology in runs |
| Stakes.BackdoorsHurt | internal/game/game.go:1754-1792 | A corporate backdoor makes sweeps worse and no other event |
| Stakes.LeaksReach | internal/game/game.go:1794-1808 | A data leak overclocks the deck alone, by one, and brings the next encounter to within fifteen minutes; no other event touches gear or timers |
| Stakes.EventsApart | internal/game/game.go:1600-1648 | After a city event the next comes no earlier than a whole interval later |
| Stakes.EventsVary | internal/game/game.go:1600-1648 | One event in ten is a pirate frequency, one in eight of the others a raid if there can be one, and every kind of news comes by some draw |
| Stakes.EventsNeedRunners | internal/game/features.go:250-267 | A raid is only called with two runners linked, a contract only with one, and neither while one is pending |
| Stakes.ContractRecruits | internal/game/game.go:1650-1678 | A contract recruits linked runners, each once, as many as there are up to the maximum, for the whole duration |
| Stakes.RaidsWarn | internal/game/features.go:263-275 | A raid resolves at the first tick thirty minutes after its warning or later, and not before |
| Stakes.RollsDecide | internal/game/features.go:284-297 | A team that covers 130 percent of its share of the wall wins every raid and one below 55 percent none; the share falls by five percent a head to 75 at six |
| Stakes.RaidStrength | internal/game/features.go:284-297 | Levels, gear and Ghostline make a runner count for more in a raid; gear never raises the wall, and on-level gear matches it |
| Stakes.ScarsCome | README.md:65 | An incident that scars adds its own scar once and takes none away; no other does |
| Stakes.SweepsScar | internal/game/game.go:1620-1645 | One corporate sweep in twenty leaves a backdoor |
| Stakes.TeamsPay | internal/game/features.go:299-311 | Raids, contracts and dead drops won pay at least a minute; a raid lost costs at least a minute and a contract two |
| Stakes.TeamParts | internal/game/game.go:1695-1713 | What contracts, raids and dead drops pay or cost is its part of the time the level takes, rounded down, but at least a minute or two |
| Stakes.OwnParts | internal/game/game.go:1164-1202 | So is what encounters and bouts pay and cost, before stance, faction, district and kind |
| Stakes.DayPart | internal/game/features.go:334-346 | A day on the link pays a quarter of the level, and at least two minutes |
| Stakes.NomadLosesLess | internal/game/game.go:1307-1312 | Nomad never loses more of a bout than anybody else, and less unless the stakes are halved |
| Stakes.OneShardPerDrop | internal/game/features.go:213-238 | A dead drop is claimed once: until another code is broadcast nothing more is claimed |
| Stakes.DriftsElsewhere | internal/game/game.go:830-835 | A drift comes when it is due, always leads elsewhere, is announced so, and the next is a whole interval off |
| Stakes.DriftsAnywhere | internal/game/game.go:1511-1519 | Every other district is where some draw leads |
| Stakes.EncountersApart | internal/game/game.go:836-844 | After an encounter the next is a whole interval off |
| Retention.TickRetains | internal/game/game.go:809-826 | A tick forgets exactly the guests not seen for longer than the retention, and strips exactly those offline for longer than the release time of their artifacts, for standard gear; no other offline runner's gear changes |
| Upheavals.WorldSpares | internal/game/game.go:770-805 | The world events of a tick leave every runner its link, names and streak, and an offline one its gear and level |
| Retention.TickForgetsNobodyLinked | internal/game/game.go:809-815 | Nobody linked is forgotten or cut off by a tick |
| Merges.MergeKeepsBest | internal/storage/storage.go:405-428 | A merge keeps the better standing of the two, the greater Heat and the later of every clock |
| Merges.MergeKeepsBetterGear | internal/storage/storage.go:431-435 | In each slot the higher rated item is kept, the account's own of two that rate alike |
| Merges.MergeKeepsHistory | internal/storage/storage.go:405-461 | Bouts add up rival by rival, and each scar of either is kept once |
| Merges.MergeKeepsChoices | internal/storage/storage.go:405-461 | The account's alias and stance stand where it has any and its faction in any case; the streak is the guest's, the district that of the record seen last |
| Merges.MergeLosesExactly | internal/storage/storage.go:407-409 | A merge keeps the greater lifetime progress of the two exactly unless the record with the higher level owes more than the levels between them cost |
| Merges.SolventNeverIndebted | internal/storage/storage.go:407-409 | A record that owes nothing is never in that case against one that has taken every level it paid for |
| Merges.DebtLosesProgress | internal/storage/storage.go:407-409 | A concrete pair of records whose merge has less lifetime progress than the guest had |
| Merges.JoinLosesNoProgress | README.md:31 | Identifying loses no lifetime progress of either record, but in that case |
| Merges.JoinKeepsHistory | internal/game/game.go:363-392 | After a join that merges, the account's runner has both records' bouts and scars, and an alias if either had one |
| Restarts.RestartRewinds | internal/game/game.go:288-351 | After a restart every runner's clocks start anew, and its timers and the city event's stand as saved, to the second, or a whole interval off if there were none |
| Restarts.RowsGivenLife | internal/game/game.go:288-321 | A row is loaded offline, and an artifact from before burn-out gets four to eight levels |
| Windows.AcceptedExactly | internal/game/game.go:543-575 | A faction command is accepted exactly if the runner is known, the faction is a real and another one, and the runner has none yet or is inside a window in which it has not changed |
| Windows.WindowsTold | internal/game/game.go:867-885 | A tick says the system crashed exactly when it opens a window, and that it is back exactly when it closes one |

## Left out

- Titles, per-runner statistics, faction-week scores and the daily bulletin: they add announcements and counters;
  the reigning champion, which only shifts ICE odds, is an argument of the tick.
- The wording of announcements, flavour pools and the draws that pick from them: announcements are tokens with
  their data, and those draws decide nothing else.
- Text handling: names carry an abstract case-folded form next to their spelling, and commands arrive trimmed and
  parsed.
- IRC connection, handlers, web observer, configuration parsing, SQL text, JSON and schema migration. Of the
  configuration only that the level step is not negative is assumed.
- Repository errors and crashes in the middle of an operation: every call to the store succeeds, and a restart
  happens between operations.
- Rows older than levels and Heat ranges: a stored level is at least 1 and Heat within its range, as the types say.
- Real time before one second past the epoch, since 0 stands for the zero time.
- 64-bit overflow: progress and time are unbounded integers.
- Losses.ClaimedIffHeld: holds under the registered name; a leaked deck counts as lost, though its holder still
  enjoys the rating.
- Windows.OneRespecPerWindow: for a guest it asks that the guest is not pruned, and not merged into an account,
  between the two commands; a merge makes it another identity, with the account's faction.
- Accounts.LedgerOfRun: a merge ends an account; what the merged record has is neither side's earnings.
- Announcements.LevelsAnnounced: a merge may raise a level without an announcement, as the program does.
- Announcements.OpQueues: titles are earned silently here; only level-ups are queued.
- Runs.StoreMirrorsMemory: faction-week scores and the bulletin's counts are not modelled, and the program saves
  them with the next save of the world only.
- Players.Player.Advance: the title awards that end the function are not part of it.
- Stores.MergeRows: titles, the chosen title and statistics are not part of the records merged.
- Engines.New: levels and Heat out of range, unknown districts, and the schedules of faction week and bulletin are
  not part of this model.
- Limiter.AnswersAgree: for cooldowns of at most ten minutes, which are all the bot uses.
