/** What the store holds: truncated runner rows, the artifact registry and the saved world. */
module StoreRows {
  import opened Grid

  /** Whole seconds, as unix timestamps keep them; the zero time stays zero. */
  function Truncate(t: Time): Time { t / SECOND * SECOND }

  /** The row a runner is saved as. The faction swap and streak times live in JSON and keep their precision. */
  function Stored(p: Runner): Runner {
    p.(lastProgressAt := Truncate(p.lastProgressAt), lastSeenAt := Truncate(p.lastSeenAt),
       nextEncounterAt := Truncate(p.nextEncounterAt), nextCollisionAt := Truncate(p.nextCollisionAt),
       nextDistrictAt := Truncate(p.nextDistrictAt), lastHeatAt := Truncate(p.lastHeatAt))
  }

  function StoredWorld(w: World): World {
    w.(pirateUntil := Truncate(w.pirateUntil), nextCityEventAt := Truncate(w.nextCityEventAt),
       swapUntil := Truncate(w.swapUntil), swapStartedAt := Truncate(w.swapStartedAt),
       nextSwapAt := Truncate(w.nextSwapAt))
  }

  type Registry = map<ItemName, Key>

  datatype Repo = Repo(players: map<Key, Runner>, claimed: Registry, world: World)

  /** A stolen artifact's entry gets its new owner; a name nobody claimed stays unclaimed. */
  function Transfer(claimed: Registry, name: ItemName, owner: Key): Registry {
    if name in claimed then claimed[name := owner] else claimed
  }

  // ---- Guest migration ----

  /** Each slot keeps the account's item unless the guest's rates higher. */
  function MergeGear(guest: Loadout, account: Loadout): Loadout {
    account + map slot | slot in guest && guest[slot].rating > GearIn(account, slot).rating :: guest[slot]
  }

  function Bouts(rivals: map<Key, nat>, k: Key): nat {
    if k in rivals then rivals[k] else 0
  }

  function MergeRivals(guest: map<Key, nat>, account: map<Key, nat>): map<Key, nat> {
    map k | k in guest.Keys + account.Keys :: Bouts(account, k) + Bouts(guest, k)
  }

  /** The account runner after absorbing the guest. */
  function Merge(guest: Runner, account: Runner): Runner {
    var ahead := guest.level > account.level || (guest.level == account.level && guest.progress > account.progress);
    var fresher := guest.lastSeenAt > account.lastSeenAt;
    account.(
      level := if ahead then guest.level else account.level,
      progress := if ahead then guest.progress else account.progress,
      lastSeenAt := Max(guest.lastSeenAt, account.lastSeenAt),
      lastProgressAt := Max(guest.lastProgressAt, account.lastProgressAt),
      district := if fresher then guest.district else account.district,
      nextDistrictAt := if fresher then guest.nextDistrictAt else account.nextDistrictAt,
      nextCollisionAt := if fresher then guest.nextCollisionAt else account.nextCollisionAt,
      heat := Max(guest.heat, account.heat),
      lastHeatAt := Max(guest.lastHeatAt, account.lastHeatAt),
      lastFactionSwapAt := Max(guest.lastFactionSwapAt, account.lastFactionSwapAt),
      alias := if account.alias.None? then guest.alias else account.alias,
      equipment := MergeGear(guest.equipment, account.equipment),
      scars := AppendUnique(account.scars, guest.scars),
      stance := if account.stance.Normal? then guest.stance else account.stance,
      streakSince := guest.streakSince,
      streakDays := guest.streakDays,
      rivals := MergeRivals(guest.rivals, account.rivals))
  }

  /** The runner both records become, under the account's key and linked. */
  function Migrated(guest: Runner, accountRow: Option<Runner>, accountKey: Key, account: Name, nick: Name): Runner {
    var merged := if accountRow.Some? then Merge(guest, accountRow.value) else guest;
    merged.(identity := accountKey, account := Some(account), nick := nick, guest := false, connected := true)
  }

  function RowOf(players: map<Key, Runner>, k: Key): Option<Runner> {
    if k in players then Some(players[k]) else None
  }

  /** One transaction: merge both rows, save the result under the account key, drop the guest's row. */
  function MigrateGuest(players: map<Key, Runner>, guestKey: Key, accountKey: Key, account: Name, nick: Name)
    : Option<(Runner, map<Key, Runner>)>
  {
    if guestKey in players then
      var row := Migrated(players[guestKey], RowOf(players, accountKey), accountKey, account, nick);
      var saved := players[accountKey := Stored(row)];
      Some((row, if guestKey != accountKey then saved - {guestKey} else saved))
    else if accountKey in players then
      var row := players[accountKey].(identity := accountKey, account := Some(account), nick := nick,
                                      guest := false, connected := true);
      Some((row, players[accountKey := Stored(row)]))
    else None
  }

  ghost predicate Distinct<T>(values: seq<T>) {
    forall i, j :: 0 <= i < j < |values| ==> values[i] != values[j]
  }

  /** The values stand, the additions are in, and nothing is listed twice that was not before. */
  lemma {:induction false} AppendUniqueIs<T>(values: seq<T>, additions: seq<T>)
    ensures var all := AppendUnique(values, additions);
            && values <= all && (forall x <- all :: x in values || x in additions)
            && (forall x <- additions :: x in all) && (Distinct(values) ==> Distinct(all))
  {
    if additions != [] {
      AppendUniqueIs(values, additions[..|additions| - 1]);
    }
  }

  // ---- The leaderboard ----

  /** Higher level first, then more progress. */
  predicate Ahead(p: Runner, q: Runner) {
    p.level > q.level || (p.level == q.level && p.progress >= q.progress)
  }

  /** The first `limit` rows of the table in ranking order; ties may fall either way. */
  ghost predicate Ranked(rows: seq<Runner>, players: map<Key, Runner>, limit: nat, order: seq<Key>) {
    && Enumerates(order, players.Keys) && |rows| == Min(limit, |order|)
    && (forall i, j :: 0 <= i <= j < |order| ==> Ahead(players[order[i]], players[order[j]]))
    && forall i :: 0 <= i < |rows| ==> rows[i] == players[order[i]]
  }
}
