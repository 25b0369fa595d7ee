/** The keyed cooldown table: a cache that forgets, proved to answer like one that never does. */
module Limiter {
  import opened Grid

  const SWEEP_SIZE: int := 512
  const STALE_AFTER: int := 10 * MINUTE

  type Table = map<string, Time>

  /** Some key is still cooling down. */
  predicate Denies(last: Table, now: Time, keys: map<string, int>) {
    exists k :: k in keys && k in last && now - last[k] < keys[k]
  }

  /** A table over the sweep size loses its stale entries. */
  function Sweep(last: Table, now: Time): Table {
    if |last| > SWEEP_SIZE then map k | k in last && now - last[k] <= STALE_AFTER :: last[k] else last
  }

  function Stamp(last: Table, now: Time, keys: map<string, int>): Table {
    last + map k | k in keys :: now
  }

  function After(last: Table, now: Time, keys: map<string, int>): Table {
    if Denies(last, now, keys) then last else Stamp(Sweep(last, now), now, keys)
  }

  class Cooldowns {
    var last: Table

    constructor ()
      ensures last == map[]
    {
      last := map[];
    }

    /** Grants every key or none. Maps are walked in any order. */
    method AllowAll(now: Time, keys: map<string, int>) returns (granted: bool)
      modifies this
      ensures granted <==> !Denies(old(last), now, keys)
      ensures last == After(old(last), now, keys)
    {
      var todo := keys.Keys;
      while todo != {}
        invariant todo <= keys.Keys
        invariant forall k :: k in keys && k !in todo && k in last ==> now - last[k] >= keys[k]
        decreases todo
      {
        var key :| key in todo;
        if key in last && now - last[key] < keys[key] {
          return false;
        }
        todo := todo - {key};
      }
      if |last| > SWEEP_SIZE {
        Forget(now);
      }
      StampAll(now, keys);
      return true;
    }

    /** The stale-key sweep: deletes while walking the table. */
    method Forget(now: Time)
      requires |last| > SWEEP_SIZE
      modifies this
      ensures last == Sweep(old(last), now)
    {
      var todo := last.Keys;
      while todo != {}
        invariant todo <= last.Keys <= old(last).Keys
        invariant forall k :: k in last ==> last[k] == old(last)[k]
        invariant forall k :: k in old(last) && k !in todo ==> (k in last <==> now - old(last)[k] <= STALE_AFTER)
        decreases todo
      {
        var key :| key in todo;
        todo := todo - {key};
        if now - last[key] > STALE_AFTER {
          last := last - {key};
        }
      }
    }

    method StampAll(now: Time, keys: map<string, int>)
      modifies this
      ensures last == Stamp(old(last), now, keys)
    {
      var todo := keys.Keys;
      while todo != {}
        invariant todo <= keys.Keys
        invariant last.Keys == old(last).Keys + (keys.Keys - todo)
        invariant forall k :: k in last ==> last[k] == if k in keys && k !in todo then now else old(last)[k]
        decreases todo
      {
        var key :| key in todo;
        todo := todo - {key};
        last := last[key := now];
      }
    }

    method Allow(key: string, cooldown: int, now: Time) returns (granted: bool)
      modifies this
      ensures granted <==> !(key in old(last) && now - old(last)[key] < cooldown)
      ensures last == if granted then Sweep(old(last), now)[key := now] else old(last)
    {
      hide Denies, Stamp, Sweep;
      granted := AllowAll(now, map[key := cooldown]);
      OneKey(old(last), now, key, cooldown);
      OneKey(Sweep(old(last), now), now, key, cooldown);
    }
  }

  /** A request for a single key. */
  lemma OneKey(last: Table, now: Time, key: string, cooldown: int)
    ensures Denies(last, now, map[key := cooldown]) <==> key in last && now - last[key] < cooldown
    ensures Stamp(last, now, map[key := cooldown]) == last[key := now]
  {
    var keys := map[key := cooldown];
    assert key in keys && forall k :: k in keys <==> k == key;
    assert (map k | k in keys :: now) == map[key := now];
  }

  // ---- Whole runs ----

  datatype Call = Call(now: Time, keys: map<string, int>)

  /** Cooldowns fit inside the sweep's age limit. */
  ghost predicate Fits(call: Call) {
    forall k :: k in call.keys ==> call.keys[k] <= STALE_AFTER
  }

  /** A run on a clock that never goes back. */
  ghost predicate Orderly(calls: seq<Call>) {
    && (forall i, j :: 0 <= i < j < |calls| ==> calls[i].now <= calls[j].now)
    && (forall i :: 0 <= i < |calls| ==> Fits(calls[i]))
  }

  /** The table after the first `n` calls of a run that started empty. */
  ghost function Cache(calls: seq<Call>, n: nat): Table
    requires n <= |calls|
  {
    if n == 0 then map[] else After(Cache(calls, n - 1), calls[n - 1].now, calls[n - 1].keys)
  }

  /** The same run on a table that never forgets a grant. */
  ghost function Ledger(calls: seq<Call>, n: nat): Table
    requires n <= |calls|
  {
    if n == 0 then map[]
    else
      var last, c := Ledger(calls, n - 1), calls[n - 1];
      if Denies(last, c.now, c.keys) then last else Stamp(last, c.now, c.keys)
  }

  /** The bounded table grants call `i` of the run. */
  ghost predicate Granted(calls: seq<Call>, i: nat)
    requires i < |calls|
  {
    !Denies(Cache(calls, i), calls[i].now, calls[i].keys)
  }

  /** The cache is the ledger with some entries that are too old to deny anything left out. */
  ghost predicate Refines(cache: Table, ledger: Table, now: Time) {
    && (forall k :: k in cache ==> k in ledger && cache[k] == ledger[k])
    && (forall k :: k in ledger && k !in cache ==> now - ledger[k] > STALE_AFTER)
  }

  lemma SameAnswer(cache: Table, ledger: Table, past: Time, call: Call)
    requires Refines(cache, ledger, past) && past <= call.now && Fits(call)
    ensures Denies(cache, call.now, call.keys) <==> Denies(ledger, call.now, call.keys)
  {
    if Denies(cache, call.now, call.keys) {
      var k :| k in call.keys && k in cache && call.now - cache[k] < call.keys[k];
      assert k in ledger && ledger[k] == cache[k];
    }
    if Denies(ledger, call.now, call.keys) {
      var k :| k in call.keys && k in ledger && call.now - ledger[k] < call.keys[k];
      assert k in cache;
    }
  }

  lemma {:induction false} CacheRefinesLedger(calls: seq<Call>, n: nat)
    requires Orderly(calls) && 0 < n <= |calls|
    ensures Refines(Cache(calls, n), Ledger(calls, n), calls[n - 1].now)
  {
    if n > 1 {
      CacheRefinesLedger(calls, n - 1);
      SameAnswer(Cache(calls, n - 1), Ledger(calls, n - 1), calls[n - 2].now, calls[n - 1]);
    }
  }

  /** Every answer of the bounded table is the answer of the table that never forgets. */
  lemma AnswersAgree(calls: seq<Call>, i: nat)
    requires Orderly(calls) && i < |calls|
    ensures Granted(calls, i) <==> !Denies(Ledger(calls, i), calls[i].now, calls[i].keys)
  {
    if i > 0 {
      CacheRefinesLedger(calls, i);
      SameAnswer(Cache(calls, i), Ledger(calls, i), calls[i - 1].now, calls[i]);
    }
  }

  /** One more call keeps an entry at least as late as it was, and a granted call stamps its keys. */
  lemma LedgerStep(last: Table, c: Call, key: string, since: Time)
    requires since <= c.now
    requires (key in last && last[key] >= since) || (key in c.keys && !Denies(last, c.now, c.keys))
    ensures var next := if Denies(last, c.now, c.keys) then last else Stamp(last, c.now, c.keys);
            key in next && next[key] >= since
  {
  }

  /** Without eviction a key's entry is its latest grant. */
  lemma {:induction false} LedgerRemembers(calls: seq<Call>, i: nat, j: nat, key: string)
    requires Orderly(calls) && i < j <= |calls| && key in calls[i].keys
    requires !Denies(Ledger(calls, i), calls[i].now, calls[i].keys)
    ensures key in Ledger(calls, j) && Ledger(calls, j)[key] >= calls[i].now
    decreases j
  {
    if i < j - 1 {
      LedgerRemembers(calls, i, j - 1, key);
    }
    LedgerStep(Ledger(calls, j - 1), calls[j - 1], key, calls[i].now);
  }

  /** Two grants that share a key are at least the later call's cooldown apart. */
  lemma GrantsApart(calls: seq<Call>, i: nat, j: nat, key: string)
    requires Orderly(calls) && i < j < |calls| && Granted(calls, i) && Granted(calls, j)
    requires key in calls[i].keys && key in calls[j].keys
    ensures calls[j].now - calls[i].now >= calls[j].keys[key]
  {
    AnswersAgree(calls, i);
    LedgerRemembers(calls, i, j, key);
    AnswersAgree(calls, j);
  }

  lemma StampSize(last: Table, now: Time, keys: map<string, int>)
    ensures |Stamp(last, now, keys)| <= |last| + |keys|
  {
    assert Stamp(last, now, keys).Keys == last.Keys + keys.Keys;
    assert |last.Keys + keys.Keys| <= |last.Keys| + |keys.Keys|;
  }

  /** After a grant the table is small, or everything left in it is recent. */
  lemma GrantBoundsTable(last: Table, now: Time, keys: map<string, int>)
    requires !Denies(last, now, keys)
    ensures var t := After(last, now, keys);
            |t| <= SWEEP_SIZE + |keys| || forall k :: k in t ==> now - t[k] <= STALE_AFTER
  {
    StampSize(Sweep(last, now), now, keys);
  }
}
