/** What a roster check does to each runner, and what no other operation does to the watch it keeps. */
module Roster {
  import opened Grid
  import opened Progression
  import opened StoreRows
  import opened Machine

  /** The runner has been missing for the whole grace period. */
  predicate Expired(s: State, k: Key, present: set<Name>, grace: int, now: Time) {
    Absent(s.users, k, present) && k in s.missing && now - s.missing[k] >= grace
  }

  /** Since when the roster check counts the runner as missing. */
  function MissingSince(s: State, k: Key, present: set<Name>, grace: int, now: Time): Option<Time> {
    if !Absent(s.users, k, present) || Expired(s, k, present, grace, now) then None
    else if k in s.missing then Some(s.missing[k])
    else Some(now)
  }

  function Since(missing: map<Key, Time>, k: Key): Option<Time> {
    if k in missing then Some(missing[k]) else None
  }

  /** A runner dropped by the check: caught up, then offline, with no penalty and no Heat. */
  function Missed(p: Runner, now: Time, r: Tuning): Runner {
    Advance(p, now, r).(connected := false, lastSeenAt := now, streakSince := 0, streakDays := 0)
  }

  function Checked(s: State, k: Key, present: set<Name>, grace: int, now: Time): Runner
    requires k in s.users
  {
    if Expired(s, k, present, grace, now) then Missed(s.users[k], now, s.rules) else s.users[k]
  }

  /** After checking the runners in `order`, the others and their watches are as before. */
  ghost predicate CheckedSoFar(s: State, t: State, order: seq<Key>, present: set<Name>, grace: int, now: Time) {
    && t.rules == s.rules && t.users.Keys == s.users.Keys
    && (forall k :: k in s.users && k in order ==>
          t.users[k] == Checked(s, k, present, grace, now)
            && Since(t.missing, k) == MissingSince(s, k, present, grace, now))
    && (forall k :: k in s.users && k !in order ==> t.users[k] == s.users[k])
    && (forall k :: k !in order ==> Since(t.missing, k) == Since(s.missing, k))
  }

  /** `u` is `t` after checking the runner at `k` alone. */
  ghost predicate CheckedAt(t: State, u: State, k: Key, present: set<Name>, grace: int, now: Time)
    requires k in t.users
  {
    && u.rules == t.rules && u.users == t.users[k := Checked(t, k, present, grace, now)]
    && Since(u.missing, k) == MissingSince(t, k, present, grace, now)
    && forall j :: j != k ==> Since(u.missing, j) == Since(t.missing, j)
  }

  lemma CheckAt(t: State, k: Key, present: set<Name>, grace: int, now: Time)
    requires k in t.users
    ensures CheckedAt(t, ReconcileAt(t, k, present, grace, now), k, present, grace, now)
  {
  }

  lemma CheckOne(s: State, t: State, u: State, order: seq<Key>, k: Key, present: set<Name>, grace: int, now: Time)
    requires CheckedSoFar(s, t, order, present, grace, now) && k in s.users && k !in order
    requires CheckedAt(t, u, k, present, grace, now)
    ensures CheckedSoFar(s, u, order + [k], present, grace, now)
  {
    assert Since(t.missing, k) == Since(s.missing, k);
    assert Absent(t.users, k, present) == Absent(s.users, k, present);
  }

  lemma {:induction false} ReconcileAllChecks(s: State, order: seq<Key>, present: set<Name>, grace: int, now: Time)
    requires forall i, j :: 0 <= i < j < |order| ==> order[i] != order[j]
    requires forall k :: k in order ==> k in s.users
    ensures CheckedSoFar(s, ReconcileAll(s, order, present, grace, now), order, present, grace, now)
  {
    if order != [] {
      var rest, k := order[..|order| - 1], order[|order| - 1];
      assert order == rest + [k] && k !in rest;
      ReconcileAllChecks(s, rest, present, grace, now);
      var t := ReconcileAll(s, rest, present, grace, now);
      CheckAt(t, k, present, grace, now);
      CheckOne(s, t, ReconcileAt(t, k, present, grace, now), rest, k, present, grace, now);
    }
  }

  /** A whole check treats every runner by itself, in whatever order it meets them. */
  lemma ReconcileExact(s: State, present: set<Name>, grace: int, now: Time, order: seq<Key>, k: Key)
    requires Enumerates(order, s.users.Keys)
    ensures var t := Reconcile(s, present, grace, now, order);
            && t.rules == s.rules && t.users.Keys == s.users.Keys
            && (k in s.users ==> t.users[k] == Checked(s, k, present, grace, now))
            && Since(t.missing, k) == MissingSince(s, k, present, grace, now)
  {
    hide ReconcileAll, Missed, Stored;
    ReconcileAllChecks(s, order, present, grace, now);
    var t := ReconcileAll(s, order, present, grace, now);
    if k in s.users {
      assert k in order;
      AdvanceLinks(s.users[k], now, s.rules);
    }
  }

  lemma AdvanceLinks(p: Runner, now: Time, r: Tuning)
    ensures Advance(p, now, r).connected == p.connected
  {
  }

  /** Being dropped costs only the link: meter, level and Heat are what time alone makes them. */
  lemma DropIsFree(p: Runner, now: Time, r: Tuning)
    ensures var q, a := Missed(p, now, r), Advance(p, now, r);
            MeterOf(q) == MeterOf(a) && q.heat == a.heat && !q.connected
  {
  }
}
