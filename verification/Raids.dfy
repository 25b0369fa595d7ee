/** Raid arithmetic: who wins, whatever order the team is walked in. */
module Raids {
  import opened Grid
  import opened Progression
  import opened StoreRows
  import opened Machine
  import Gear

  // ---- Sums over a team ----

  /** Who is linked does not depend on a runner outside the walk so far. */
  lemma {:induction false} LinkedElsewhere(users: map<Key, Runner>, order: seq<Key>, k: Key, p: Runner)
    requires k !in order
    ensures ConnectedIn(users[k := p], order) == ConnectedIn(users, order)
  {
    if order != [] {
      LinkedElsewhere(users, order[..|order| - 1], k, p);
    }
  }

  lemma LinkedNext(users: map<Key, Runner>, rest: seq<Key>, k: Key)
    ensures ConnectedIn(users, rest + [k])
         == ConnectedIn(users, rest) + if k in users && users[k].connected then [k] else []
  {
    var all := rest + [k];
    assert all[..|all| - 1] == rest && all[|all| - 1] == k;
  }

  lemma {:induction false} SumsElsewhere(users: map<Key, Runner>, team: seq<Key>, k: Key, p: Runner)
    requires k !in team && forall j <- team :: j in users
    ensures TeamPower(users[k := p], team) == TeamPower(users, team)
    ensures TeamWall(users[k := p], team) == TeamWall(users, team)
  {
    if team != [] {
      SumsElsewhere(users, team[..|team| - 1], k, p);
    }
  }

  lemma SumsGrow(users: map<Key, Runner>, team: seq<Key>, k: Key)
    requires k in users && forall j <- team :: j in users
    ensures TeamPower(users, team + [k]) == TeamPower(users, team) + RaidPower(users[k])
    ensures TeamWall(users, team + [k]) == TeamWall(users, team) + RaidWall(users[k])
  {
    assert (team + [k])[..|team|] == team;
  }

  /** Taking any one member out of the team. */
  lemma {:induction false} SumsWithout(users: map<Key, Runner>, team: seq<Key>, i: nat)
    requires i < |team| && forall j <- team :: j in users
    ensures TeamPower(users, team) == TeamPower(users, team[..i] + team[i + 1..]) + RaidPower(users[team[i]])
    ensures TeamWall(users, team) == TeamWall(users, team[..i] + team[i + 1..]) + RaidWall(users[team[i]])
    decreases |team|
  {
    var rest, last := team[..|team| - 1], team[|team| - 1];
    if i == |team| - 1 {
      assert team[..i] + team[i + 1..] == rest;
    } else {
      SumsWithout(users, rest, i);
      SumsGrow(users, rest[..i] + rest[i + 1..], last);
      assert team[..i] + team[i + 1..] == rest[..i] + rest[i + 1..] + [last];
    }
  }

  lemma TakeOut<T>(a: seq<T>, i: nat)
    requires i < |a|
    ensures multiset(a) == multiset(a[..i] + a[i + 1..]) + multiset{a[i]}
  {
    assert a == a[..i] + [a[i]] + a[i + 1..];
  }

  /** Whoever comes last in one listing sits somewhere in the other. */
  lemma FindLast<T>(a: seq<T>, b: seq<T>) returns (i: nat)
    requires multiset(a) == multiset(b) && a != []
    ensures i < |b| && b[i] == a[|a| - 1]
    ensures multiset(b[..i] + b[i + 1..]) == multiset(a[..|a| - 1])
  {
    var last := |a| - 1;
    assert a[last] in multiset(b);
    i :| 0 <= i < |b| && b[i] == a[last];
    TakeOut(a, last);
    TakeOut(b, i);
    assert a[..last] + a[last + 1..] == a[..last];
    var rest, short := multiset(b[..i] + b[i + 1..]), multiset(a[..last]);
    assert rest == rest + multiset{a[last]} - multiset{a[last]};
    assert short == short + multiset{a[last]} - multiset{a[last]};
  }

  lemma SameElements<T>(a: seq<T>, b: seq<T>)
    requires multiset(a) == multiset(b)
    ensures |a| == |b| && forall x :: x in a <==> x in b
  {
    assert |multiset(a)| == |a| && |multiset(b)| == |b|;
    assert forall x :: x in multiset(a) <==> x in a;
    assert forall x :: x in multiset(b) <==> x in b;
  }

  /** Power and wall are the same in every order. */
  lemma {:induction false} SumsUnordered(users: map<Key, Runner>, a: seq<Key>, b: seq<Key>)
    requires multiset(a) == multiset(b) && (forall j <- a :: j in users) && forall j <- b :: j in users
    ensures TeamPower(users, a) == TeamPower(users, b) && TeamWall(users, a) == TeamWall(users, b)
    decreases |a|
  {
    SameElements(a, b);
    if a != [] {
      var i := FindLast(a, b);
      SumsWithout(users, b, i);
      SumsUnordered(users, a[..|a| - 1], b[..i] + b[i + 1..]);
    }
  }

  // ---- Winning ----

  lemma ProductAtLeast(a: int, b: int, n: int)
    requires a >= b && n >= 0
    ensures a * n >= b * n
  {
    assert a * n - b * n == (a - b) * n;
  }

  lemma FactorAtLeast(a: int, b: int, n: int)
    requires a * n >= b * n && n > 0
    ensures a >= b
  {
    if a < b {
      assert b * n - a * n == (b - a) * n;
      ProductAtLeast(b - a, 1, n);
      assert false;
    }
  }

  /**
   A newcomer's power covers a share of the wall if the team's covers its own and the newcomer's ratio is no worse.
   */
  lemma RatioStep(power: int, wall: int, p: int, w: int, n: nat, m: int)
    requires power * n >= wall * m && p * wall >= power * w && wall > 0 && w >= 0
    ensures p * n >= w * m
  {
    ProductAtLeast(p * wall, power * w, n);
    ProductAtLeast(power * n, wall * m, w);
    assert p * wall * n == p * n * wall && power * w * n == power * n * w && wall * m * w == w * m * wall by {
      Commute(p, wall, n);
      Commute(power, w, n);
      Commute(wall, m, w);
      Commute(w, m, wall);
    }
    FactorAtLeast(p * n, w * m, wall);
  }

  lemma Commute(a: int, b: int, c: int)
    ensures a * b * c == a * c * b == c * b * a
  {
  }

  lemma TeamworkShrinks(size: nat)
    ensures 75 <= Teamwork(size + 1) <= Teamwork(size)
  {
  }

  lemma NewcomerStep(power: int, wall: nat, p: int, w: nat, m: int, m': int)
    requires power * 10000 >= wall * m && wall > 0 && p * wall >= power * w && m >= m'
    ensures (power + p) * 10000 >= (wall + w) * m'
  {
    RatioStep(power, wall, p, w, 10000, m);
    assert (wall + w) * m == wall * m + w * m;
    ProductAtLeast(m, m', wall + w);
    assert (wall + w) * m == m * (wall + w) && (wall + w) * m' == m' * (wall + w);
  }

  lemma NewcomerCovers(power: int, wall: nat, p: int, w: nat, roll: nat, size: nat)
    requires RaidWon(power, wall, roll, size)
    requires wall > 0 && p * wall >= power * w
    ensures RaidWon(power + p, wall + w, roll, size + 1)
  {
    TeamworkShrinks(size);
    hide Teamwork;
    var m, m' := roll * Teamwork(size), roll * Teamwork(size + 1);
    ProductAtLeast(Teamwork(size), Teamwork(size + 1), roll);
    Associate(wall, roll, Teamwork(size));
    Associate(wall + w, roll, Teamwork(size + 1));
    NewcomerStep(power, wall, p, w, m, m');
  }

  lemma Associate(a: int, b: int, c: int)
    ensures a * b * c == a * (b * c)
  {
  }

  /** Six or more runners whose power covers their wall win on every roll; five can lose to a high one. */
  lemma SixAlwaysWin(power: int, wall: nat, roll: nat, size: nat)
    requires size >= 6 && power >= wall && roll <= 130
    ensures RaidWon(power, wall, roll, size)
    ensures !RaidWon(1, 1, 130, 5)
  {
    assert Teamwork(size) == 75;
    ProductAtLeast(130, roll, wall);
    assert wall * roll * 75 == 75 * (roll * wall);
  }

  // ---- A raid in a tick ----

  /** On-level gear or better. */
  predicate Geared(p: Runner) {
    EquipmentRating(p.equipment) >= Gear.ExpectedRating(p.level)
  }

  lemma {:induction false} TierSumPositive(high: int, low: Level)
    ensures Gear.TierSum(high, low) >= 0
    decreases high - low
  {
    if high >= low {
      TierSumPositive(high - 1, low);
    }
  }

  lemma WallPositive(p: Runner)
    ensures RaidWall(p) >= 1
  {
    TierSumPositive(p.level, Max(2, p.level - 4));
  }

  lemma {:induction false} WallCounts(users: map<Key, Runner>, team: seq<Key>)
    requires forall k :: k in team ==> k in users
    ensures TeamWall(users, team) >= |team|
  {
    hide RaidWall;
    if team != [] {
      WallCounts(users, team[..|team| - 1]);
      WallPositive(users[team[|team| - 1]]);
    }
  }

  lemma {:induction false} GearedTeamCovers(users: map<Key, Runner>, team: seq<Key>)
    requires forall k <- team :: k in users && Geared(users[k])
    ensures TeamPower(users, team) >= TeamWall(users, team)
  {
    if team != [] {
      GearedTeamCovers(users, team[..|team| - 1]);
    }
  }

  /**
   For a fixed roll, a newcomer whose power-to-wall ratio is at least the team's never turns a win into a
   loss.
   */
  lemma NewcomerNeverHurts(s: State, team: seq<Key>, k: Key)
    requires team != [] && k in s.users && (forall j :: j in team ==> j in s.users) && TeamWins(s, team)
    requires RaidPower(s.users[k]) * TeamWall(s.users, team) >= TeamPower(s.users, team) * RaidWall(s.users[k])
    ensures TeamWins(s, team + [k])
  {
    hide RaidPower, RaidWall, RaidWon, TeamPower, TeamWall;
    SumsGrow(s.users, team, k);
    WallCounts(s.users, team);
    WallPositive(s.users[k]);
    NewcomerCovers(TeamPower(s.users, team), TeamWall(s.users, team), RaidPower(s.users[k]), RaidWall(s.users[k]),
                   55 + Draw(s.rng, 76), |team|);
  }

  /** The runner at `k` once everybody linked in the order has been advanced. */
  function Called(s: State, order: seq<Key>, now: Time, k: Key): Runner
    requires k in s.users
  {
    if k in order && s.users[k].connected then Advance(s.users[k], now, s.rules) else s.users[k]
  }

  /** Advancing the team is advancing each of its members, in whatever order. */
  lemma {:induction false} TeamAdvances(s: State, order: seq<Key>, now: Time)
    requires forall i, j :: 0 <= i < j < |order| ==> order[i] != order[j]
    ensures var t := AdvanceTeam(s, order, now);
            && t.rng == s.rng && t.rules == s.rules && t.users.Keys == s.users.Keys
            && forall k :: k in s.users ==> t.users[k] == Called(s, order, now, k)
  {
    hide Advance, LevelMsgs, Queue;
    if order != [] {
      var rest, k := order[..|order| - 1], order[|order| - 1];
      TeamAdvances(s, rest, now);
      assert order == rest + [k] && k !in rest;
    }
  }

  lemma LinkedStays(p: Runner, now: Time, r: Tuning)
    ensures Advance(p, now, r).connected == p.connected
  {
  }

  lemma {:induction false} LinkedDistinct(users: map<Key, Runner>, order: seq<Key>)
    requires Distinct(order)
    ensures Distinct(ConnectedIn(users, order))
  {
    if order != [] {
      var rest, k := order[..|order| - 1], order[|order| - 1];
      LinkedDistinct(users, rest);
      assert order == rest + [k] && k !in rest;
      assert k !in ConnectedIn(users, rest);
    }
  }

  /** The team gets its share, each member once, and nobody else anything. */
  lemma {:induction false} TeamPaid(s: State, team: seq<Key>, won: bool)
    requires Distinct(team) && forall k :: k in team ==> k in s.users
    ensures var t := PayTeam(s, team, won);
            && t.rules == s.rules
            && forall k :: k in s.users ==>
                 t.users[k] == if k in team then Raided(s.users[k], won, s.rules) else s.users[k]
  {
    hide Raided, Stored;
    if team != [] {
      var rest, k := team[..|team| - 1], team[|team| - 1];
      TeamPaid(s, rest, won);
      assert team == rest + [k] && k !in rest;
    }
  }

  /** How a raid in this state ends if anybody is linked. */
  predicate RaidWins(s: State, now: Time, order: seq<Key>) {
    var s1 := AdvanceTeam(s, order, now);
    TeamWins(s1, ConnectedIn(s1.users, order))
  }

  /** What a raid makes of one runner. */
  function AfterRaid(s: State, now: Time, order: seq<Key>, k: Key): Runner
    requires k in s.users
  {
    if s.users[k].connected
    then Raided(Advance(s.users[k], now, s.rules), RaidWins(s, now, order), s.rules)
    else s.users[k]
  }

  /** A raid catches every linked runner up and pays or charges it once; nobody else is touched. */
  lemma RaidReaches(t: TS, now: Time, order: seq<Key>)
    requires Enumerates(order, t.s.users.Keys)
    ensures var u := RaidStep(t, now, order).s;
            && u.rules == t.s.rules && u.users.Keys == t.s.users.Keys
            && forall k :: k in t.s.users ==> u.users[k] == AfterRaid(t.s, now, order, k)
  {
    hide Advance, Raided, TeamWins, AdvanceTeam, PayTeam, ConnectedIn;
    var s1 := AdvanceTeam(t.s, order, now);
    var team := ConnectedIn(s1.users, order);
    TeamAdvances(t.s, order, now);
    LinkedDistinct(s1.users, order);
    forall k | k in t.s.users ensures k in team <==> t.s.users[k].connected {
      LinkedStays(t.s.users[k], now, t.s.rules);
    }
    TeamPaid(Skip(s1), team, TeamWins(s1, team));
  }

  lemma {:induction false} ConnectedDistinct(users: map<Key, Runner>, order: seq<Key>)
    requires forall i, j :: 0 <= i < j < |order| ==> order[i] != order[j]
    ensures forall k :: multiset(ConnectedIn(users, order))[k] == if k in ConnectedIn(users, order) then 1 else 0
  {
    if order != [] {
      ConnectedDistinct(users, order[..|order| - 1]);
    }
  }

  lemma SameCounts<T>(a: seq<T>, b: seq<T>)
    requires forall x :: multiset(a)[x] == if x in a then 1 else 0
    requires forall x :: multiset(b)[x] == if x in b then 1 else 0
    requires forall x :: x in a <==> x in b
    ensures multiset(a) == multiset(b)
  {
  }

  /** Every walk of the map meets the same team. */
  lemma SameTeam(users: map<Key, Runner>, a: seq<Key>, b: seq<Key>)
    requires Enumerates(a, users.Keys) && Enumerates(b, users.Keys)
    ensures multiset(ConnectedIn(users, a)) == multiset(ConnectedIn(users, b))
  {
    ConnectedDistinct(users, a);
    ConnectedDistinct(users, b);
    assert forall k :: k in a <==> k in b;
    SameCounts(ConnectedIn(users, a), ConnectedIn(users, b));
  }

  lemma SameUsers(s: State, a: seq<Key>, b: seq<Key>, now: Time)
    requires Enumerates(a, s.users.Keys) && Enumerates(b, s.users.Keys)
    ensures AdvanceTeam(s, a, now).users == AdvanceTeam(s, b, now).users
    ensures AdvanceTeam(s, a, now).users.Keys == s.users.Keys
    ensures AdvanceTeam(s, a, now).rng == AdvanceTeam(s, b, now).rng
  {
    hide Advance;
    TeamAdvances(s, a, now);
    TeamAdvances(s, b, now);
    assert forall k :: k in a <==> k in b;
  }

  lemma SameSums(users: map<Key, Runner>, a: seq<Key>, b: seq<Key>)
    requires Enumerates(a, users.Keys) && Enumerates(b, users.Keys)
    ensures var x, y := ConnectedIn(users, a), ConnectedIn(users, b);
            |x| == |y| && TeamPower(users, x) == TeamPower(users, y) && TeamWall(users, x) == TeamWall(users, y)
  {
    hide TeamPower, TeamWall, ConnectedIn;
    SameTeam(users, a, b);
    SameElements(ConnectedIn(users, a), ConnectedIn(users, b));
    SumsUnordered(users, ConnectedIn(users, a), ConnectedIn(users, b));
  }

  /** How a raid against a team of this size, power and wall ends. */
  function Verdict(power: int, wall: int, roll: int, size: nat): Msg {
    if size == 0 then RaidEmpty else if RaidWon(power, wall, roll, size) then RaidDown(size) else RaidHolds(size)
  }

  lemma RaidSays(t: TS, now: Time, order: seq<Key>)
    ensures var s := AdvanceTeam(t.s, order, now);
            var team := ConnectedIn(s.users, order);
            RaidStep(t, now, order).out
              == t.out + [Verdict(TeamPower(s.users, team), TeamWall(s.users, team), 55 + Draw(s.rng, 76), |team|)]
  {
    hide Advance, AdvanceTeam, PayTeam, TeamPower, TeamWall, ConnectedIn, RaidWon, Draw;
  }

  /** Six or more with on-level gear or better win on every roll. */
  lemma GearedTeamWins(users: map<Key, Runner>, team: seq<Key>, roll: nat)
    requires |team| >= 6 && roll <= 130 && forall k <- team :: k in users && Geared(users[k])
    ensures RaidWon(TeamPower(users, team), TeamWall(users, team), roll, |team|)
  {
    hide RaidWon, TeamPower, TeamWall, Geared;
    GearedTeamCovers(users, team);
    WallCounts(users, team);
    SixAlwaysWin(TeamPower(users, team), TeamWall(users, team), roll, |team|);
  }

  lemma CalledGeared(s: State, now: Time, order: seq<Key>)
    requires Enumerates(order, s.users.Keys)
    requires forall k :: k in s.users && s.users[k].connected ==> Geared(Advance(s.users[k], now, s.rules))
    ensures var t := AdvanceTeam(s, order, now);
            forall k <- ConnectedIn(t.users, order) :: k in t.users && Geared(t.users[k])
  {
    hide Advance, Geared, AdvanceTeam;
    var t := AdvanceTeam(s, order, now);
    TeamAdvances(s, order, now);
    forall k <- ConnectedIn(t.users, order) ensures k in t.users && Geared(t.users[k]) {
      LinkedStays(s.users[k], now, s.rules);
    }
  }

  /** Six or more linked runners with on-level gear or better bring every raid down. */
  lemma SixGearedWin(t: TS, now: Time, order: seq<Key>)
    requires Enumerates(order, t.s.users.Keys)
    requires |ConnectedIn(AdvanceTeam(t.s, order, now).users, order)| >= 6
    requires forall k :: k in t.s.users && t.s.users[k].connected ==> Geared(Advance(t.s.users[k], now, t.s.rules))
    ensures var u := RaidStep(t, now, order);
            u.out == t.out + [RaidDown(|ConnectedIn(AdvanceTeam(t.s, order, now).users, order)|)]
  {
    hide Advance, AdvanceTeam, RaidStep, RaidWon, TeamPower, TeamWall, Geared, ConnectedIn, Draw;
    var s := AdvanceTeam(t.s, order, now);
    CalledGeared(t.s, now, order);
    RaidSays(t, now, order);
    GearedTeamWins(s.users, ConnectedIn(s.users, order), 55 + Draw(s.rng, 76));
  }

  lemma SameWin(s: State, a: seq<Key>, b: seq<Key>, now: Time)
    requires Enumerates(a, s.users.Keys) && Enumerates(b, s.users.Keys)
    ensures RaidWins(s, now, a) == RaidWins(s, now, b)
  {
    hide AdvanceTeam, TeamPower, TeamWall, ConnectedIn, Draw, RaidWon;
    SameUsers(s, a, b, now);
    SameSums(AdvanceTeam(s, a, now).users, a, b);
  }

  /** Neither the raid's outcome nor what it makes of anybody depends on the order in which the map is walked. */
  lemma RaidUnordered(t: TS, now: Time, a: seq<Key>, b: seq<Key>)
    requires Enumerates(a, t.s.users.Keys) && Enumerates(b, t.s.users.Keys)
    ensures RaidStep(t, now, a).out == RaidStep(t, now, b).out
    ensures RaidStep(t, now, a).s.users == RaidStep(t, now, b).s.users
  {
    hide RaidStep, AdvanceTeam, Verdict, TeamPower, TeamWall, ConnectedIn, Draw, RaidWins, Advance, Raided;
    SameUsers(t.s, a, b, now);
    SameSums(AdvanceTeam(t.s, a, now).users, a, b);
    RaidSays(t, now, a);
    RaidSays(t, now, b);
    SameWin(t.s, a, b, now);
    RaidReaches(t, now, a);
    RaidReaches(t, now, b);
  }
}
