/** The leaderboard read from the store is the ranking of the runners in memory. */
module Ranking {
  import opened Grid
  import opened Progression
  import opened StoreRows
  import opened Machine
  import opened Invariants
  import opened Operations
  import Restarts

  /** Top catches every linked runner up, in whatever order, and nobody else. */
  lemma {:induction false} CaughtUp(s: State, order: seq<Key>, now: Time, k: Key)
    requires k in s.users && forall i, j :: 0 <= i < j < |order| ==> order[i] != order[j]
    ensures var t := RefreshAll(s, order, now);
            && t.rules == s.rules && t.users.Keys == s.users.Keys
            && t.users[k] == if k in order && s.users[k].connected then Advance(s.users[k], now, s.rules)
              else s.users[k]
  {
    hide Advance, LevelMsgs, Queue, Stored;
    if order != [] {
      var rest, j := order[..|order| - 1], order[|order| - 1];
      CaughtUp(s, rest, now, k);
      assert order == rest + [j] && j !in rest;
    }
  }

  lemma {:induction false} KeysStay(s: State, order: seq<Key>, now: Time)
    ensures RefreshAll(s, order, now).users.Keys == s.users.Keys
  {
    hide Advance, LevelMsgs, Queue, Stored;
    if order != [] {
      KeysStay(s, order[..|order| - 1], now);
    }
  }

  /** The row of the runner at `k`, with the standing it has in memory. */
  predicate SameRank(row: Runner, k: Key, users: map<Key, Runner>) {
    k in users && row.identity == k && row.level == users[k].level && row.progress == users[k].progress
  }

  /** The rows listed are the runners first in line, with the levels and meters they have at this moment. */
  lemma TopRanksMemory(s: State, walk: seq<Key>, now: Time, rows: seq<Runner>, limit: nat, order: seq<Key>)
    requires Inv(s) && Enumerates(walk, s.users.Keys)
    requires Ranked(rows, RefreshAll(s, walk, now).repo.players, limit, order)
    ensures var users := RefreshAll(s, walk, now).users;
            && Enumerates(order, users.Keys) && |rows| == Min(limit, |order|) && users.Keys == s.users.Keys
            && (forall i, j :: 0 <= i <= j < |order| ==> Ahead(users[order[i]], users[order[j]]))
            && (forall i :: 0 <= i < |rows| ==> SameRank(rows[i], order[i], users))
            && (forall k :: k in s.users && s.users[k].connected ==> users[k] == Advance(s.users[k], now, s.rules))
  {
    hide Advance, RefreshAll, Core;
    var t := RefreshAll(s, walk, now);
    RefreshAllKeeps(s, walk, now);
    forall k ensures k in t.repo.players <==> k in t.users
      ensures k in t.users ==> t.repo.players[k] == Stored(t.users[k]) && t.users[k].identity == k
    {
      Restarts.RowSound(t, k);
    }
    forall k | k in s.users
      ensures k in t.users && (s.users[k].connected ==> t.users[k] == Advance(s.users[k], now, s.rules))
    {
      CaughtUp(s, walk, now, k);
    }
    KeysStay(s, walk, now);
  }
}
