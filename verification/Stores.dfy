/** The store behind the engine: its tables, updated in place, and the merge of a guest into an account. */
module Stores {
  import opened Grid
  import opened StoreRows
  import opened Players

  class Store {
    var players: map<Key, Runner>
    var claimed: Registry
    var world: World

    /** The tables' current contents. */
    function Contents(): Repo
      reads this
    {
      Repo(players, claimed, world)
    }

    constructor (repo: Repo)
      ensures Contents() == repo
    {
      players, claimed, world := repo.players, repo.claimed, repo.world;
    }

    method Save(p: Player)
      modifies `players
      ensures players == old(players)[p.View().identity := Stored(p.View())]
    {
      players := players[p.identity := Stored(p.View())];
    }

    method Delete(k: Key)
      modifies `players
      ensures players == old(players) - {k}
    {
      players := players - {k};
    }

    method SaveWorldState(w: World)
      modifies `world
      ensures world == StoredWorld(w)
    {
      world := StoredWorld(w);
    }

    /** Only the first claim of a name counts. */
    method ClaimRareItem(name: ItemName, owner: Key) returns (granted: bool)
      modifies `claimed
      ensures granted <==> name !in old(claimed)
      ensures claimed == if granted then old(claimed)[name := owner] else old(claimed)
    {
      granted := name !in claimed;
      if granted {
        claimed := claimed[name := owner];
      }
    }

    method ReleaseRareItem(name: ItemName)
      modifies `claimed
      ensures claimed == old(claimed) - {name}
    {
      claimed := claimed - {name};
    }

    method TransferRareItem(name: ItemName, owner: Key)
      modifies `claimed
      ensures claimed == Transfer(old(claimed), name, owner)
    {
      if name in claimed {
        claimed := claimed[name := owner];
      }
    }

    /** Of the rows under these keys, one that nobody is ahead of. */
    method First(keys: set<Key>) returns (best: Key)
      requires keys != {} && keys <= players.Keys
      ensures best in keys && forall k :: k in keys ==> Ahead(players[best], players[k])
    {
      best :| best in keys;
      var todo := keys - {best};
      while todo != {}
        invariant todo <= keys && best in keys
        invariant forall k :: k in keys && k !in todo ==> Ahead(players[best], players[k])
        decreases todo
      {
        var k :| k in todo;
        if !Ahead(players[best], players[k]) {
          best := k;
        }
        todo := todo - {k};
      }
    }

    /** The rows in ranking order, as many as asked for and there are. */
    method Top(limit: nat) returns (rows: seq<Runner>, ghost order: seq<Key>)
      ensures Ranked(rows, players, limit, order)
    {
      rows, order := [], [];
      var left := players.Keys;
      while left != {}
        invariant left <= players.Keys
        invariant forall k :: k in order <==> k in players && k !in left
        invariant forall i, j :: 0 <= i < j < |order| ==> order[i] != order[j]
        invariant forall i, j :: 0 <= i <= j < |order| ==> Ahead(players[order[i]], players[order[j]])
        invariant forall i, k :: 0 <= i < |order| && k in left ==> Ahead(players[order[i]], players[k])
        invariant |rows| == Min(limit, |order|)
        invariant forall i :: 0 <= i < |rows| ==> rows[i] == players[order[i]]
        decreases left
      {
        var k := First(left);
        if |rows| < limit {
          rows := rows + [players[k]];
        }
        order := order + [k];
        left := left - {k};
      }
    }

    /** The rows under the two keys as one record; none if there is neither. */
    method LoadMerged(guestKey: Key, accountKey: Key) returns (p: Player?)
      ensures p == null <==> guestKey !in players && accountKey !in players
      ensures p != null ==> fresh(p)
      ensures p != null ==> (p.View() == if guestKey !in players then players[accountKey]
                                         else if accountKey !in players then players[guestKey]
                                         else Merge(players[guestKey], players[accountKey]))
    {
      hide Merge;
      p := null;
      if accountKey in players {
        if guestKey in players {
          p := MergeRows(players[guestKey], players[accountKey]);
        } else {
          p := new Player(players[accountKey]);
        }
      } else if guestKey in players {
        p := new Player(players[guestKey]);
      }
    }

    /** One transaction: both rows become one, saved under the account key; the guest's row goes. */
    method MigrateGuest(guestKey: Key, accountKey: Key, account: Name, nick: Name) returns (p: Player?)
      modifies `players
      ensures p == null <==> guestKey !in old(players) && accountKey !in old(players)
      ensures p == null ==> players == old(players)
      ensures p != null ==> fresh(p) && p.View().identity == accountKey
      ensures StoreRows.MigrateGuest(old(players), guestKey, accountKey, account, nick)
           == if p == null then None else Some((p.View(), players))
    {
      hide Merge, Stored, Player.View;
      p := LoadMerged(guestKey, accountKey);
      if p != null {
        var guested := guestKey in players;
        p.Adopt(accountKey, account);
        p.Link(nick);
        Save(p);
        if guested && guestKey != accountKey {
          Delete(guestKey);
        }
      }
    }
  }

  /** merge: the account's record absorbs the guest's. */
  method MergeRows(guest: Runner, account: Runner) returns (result: Player)
    ensures fresh(result) && result.View() == Merge(guest, account)
  {
    hide Player.View, MergeGear, MergeRivals, AppendUnique, Max;
    result := new Player(account);
    MergeRank(guest, result);
    MergePlace(guest, result);
    MergeClocks(guest, result);
    MergeMood(guest, result);
    MergeEquipment(guest.equipment, result);
    AppendScars(guest.scars, result);
    MergeBouts(guest.rivals, result);
  }

  /** The record further ahead sets level and meter; the guest is the live connection, so its streak counts. */
  method MergeRank(guest: Runner, result: Player)
    modifies result
    ensures var r := old(result.View());
            var ahead := guest.level > r.level || (guest.level == r.level && guest.progress > r.progress);
            result.View() == r.(level := if ahead then guest.level else r.level,
                                progress := if ahead then guest.progress else r.progress,
                                streakSince := guest.streakSince, streakDays := guest.streakDays)
  {
    if guest.level > result.level || (guest.level == result.level && guest.progress > result.progress) {
      result.level, result.progress := guest.level, guest.progress;
    }
    result.streakSince, result.streakDays := guest.streakSince, guest.streakDays;
  }

  /** The record seen last sets the district and what is due there. */
  method MergePlace(guest: Runner, result: Player)
    modifies result
    ensures var r := old(result.View());
            var fresher := guest.lastSeenAt > r.lastSeenAt;
            result.View() == r.(lastSeenAt := Max(guest.lastSeenAt, r.lastSeenAt),
                                district := if fresher then guest.district else r.district,
                                nextDistrictAt := if fresher then guest.nextDistrictAt else r.nextDistrictAt,
                                nextCollisionAt := if fresher then guest.nextCollisionAt else r.nextCollisionAt)
  {
    if guest.lastSeenAt > result.lastSeenAt {
      result.lastSeenAt := guest.lastSeenAt;
      result.district, result.nextDistrictAt, result.nextCollisionAt
        := guest.district, guest.nextDistrictAt, guest.nextCollisionAt;
    }
  }

  /** The later clocks win. */
  method MergeClocks(guest: Runner, result: Player)
    modifies result
    ensures var r := old(result.View());
            result.View() == r.(lastProgressAt := Max(guest.lastProgressAt, r.lastProgressAt),
                                lastHeatAt := Max(guest.lastHeatAt, r.lastHeatAt),
                                lastFactionSwapAt := Max(guest.lastFactionSwapAt, r.lastFactionSwapAt))
  {
    result.lastProgressAt := Max(guest.lastProgressAt, result.lastProgressAt);
    result.lastHeatAt := Max(guest.lastHeatAt, result.lastHeatAt);
    result.lastFactionSwapAt := Max(guest.lastFactionSwapAt, result.lastFactionSwapAt);
  }

  /** The hotter record sets Heat; alias and stance fill gaps. */
  method MergeMood(guest: Runner, result: Player)
    modifies result
    ensures var r := old(result.View());
            result.View() == r.(heat := Max(guest.heat, r.heat),
                                alias := if r.alias.None? then guest.alias else r.alias,
                                stance := if r.stance.Normal? then guest.stance else r.stance)
  {
    result.heat := Max(guest.heat, result.heat);
    result.alias := if result.alias.None? then guest.alias else result.alias;
    result.stance := if result.stance.Normal? then guest.stance else result.stance;
  }

  /** Slot by slot, in any order, the better-rated item wins; the account's on a tie. */
  method MergeEquipment(guest: Loadout, result: Player)
    modifies result
    ensures var r := old(result.View()); result.View() == r.(equipment := MergeGear(guest, r.equipment))
  {
    ghost var held := result.equipment;
    var todo := guest.Keys;
    while todo != {}
      modifies result`equipment
      invariant todo <= guest.Keys
      invariant forall slot :: slot in result.equipment <==>
        slot in held || (slot in guest && slot !in todo && guest[slot].rating > 0)
      invariant forall slot :: slot in result.equipment ==>
        result.equipment[slot] ==
          if slot in guest && slot !in todo && guest[slot].rating > GearIn(held, slot).rating
          then guest[slot] else held[slot]
      decreases todo
    {
      var slot :| slot in todo;
      todo := todo - {slot};
      if guest[slot].rating > GearIn(result.equipment, slot).rating {
        result.equipment := result.equipment[slot := guest[slot]];
      }
    }
    assert result.equipment == MergeGear(guest, held);
  }

  /** appendUnique on the list of scars. */
  method AppendScars(additions: seq<Scar>, result: Player)
    modifies result
    ensures var r := old(result.View()); result.View() == r.(scars := AppendUnique(r.scars, additions))
  {
    for i := 0 to |additions|
      modifies result`scars
      invariant result.scars == AppendUnique(old(result.scars), additions[..i])
    {
      assert additions[..i + 1] == additions[..i] + [additions[i]];
      var found := false;
      for j := 0 to |result.scars|
        invariant found <==> additions[i] in result.scars[..j]
      {
        if result.scars[j] == additions[i] { found := true; }
      }
      if !found {
        result.scars := result.scars + [additions[i]];
      }
    }
    assert additions == additions[..|additions|];
  }

  /** Bouts against the same rival add up. */
  method MergeBouts(guest: map<Key, nat>, result: Player)
    modifies result
    ensures var r := old(result.View()); result.View() == r.(rivals := MergeRivals(guest, r.rivals))
  {
    ghost var held := result.rivals;
    var todo := guest.Keys;
    while todo != {}
      modifies result`rivals
      invariant todo <= guest.Keys
      invariant result.rivals.Keys == held.Keys + (guest.Keys - todo)
      invariant forall k :: k in result.rivals ==>
        result.rivals[k] == Bouts(held, k) + if k in todo then 0 else Bouts(guest, k)
      decreases todo
    {
      var k :| k in todo;
      todo := todo - {k};
      result.rivals := result.rivals[k := Bouts(result.rivals, k) + guest[k]];
    }
    assert result.rivals == MergeRivals(guest, held);
  }
}
