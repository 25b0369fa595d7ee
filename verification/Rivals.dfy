/** Collision counts between runners, and who a runner's rival is. */
module Rivals {
  import opened Grid

  const RIVALRY_BOUTS: nat := 5

  // ---- The order of identities ----

  /** String order: at the first difference, the smaller character or the end of the string comes first. */
  predicate LexBefore(a: string, b: string) {
    if b == "" then false
    else if a == "" then true
    else a[0] < b[0] || (a[0] == b[0] && LexBefore(a[1..], b[1..]))
  }

  /** Order of identities as strings: "acct:" sorts before "guest:". */
  predicate Before(a: Key, b: Key) {
    match a
    case Acct(x) => b.Guest? || LexBefore(x, b.fold)
    case Guest(x) => b.Guest? && LexBefore(x, b.fold)
  }

  lemma {:induction false} LexIrreflexive(a: string)
    ensures !LexBefore(a, a)
  {
    if a != "" {
      LexIrreflexive(a[1..]);
    }
  }

  lemma {:induction false} LexTotal(a: string, b: string)
    requires a != b
    ensures LexBefore(a, b) <==> !LexBefore(b, a)
  {
    if a != "" && b != "" && a[0] == b[0] {
      assert a == [a[0]] + a[1..] && b == [b[0]] + b[1..];
      LexTotal(a[1..], b[1..]);
    }
  }

  lemma {:induction false} LexTransitive(a: string, b: string, c: string)
    requires LexBefore(a, b) && LexBefore(b, c)
    ensures LexBefore(a, c)
  {
    if a != "" && a[0] == b[0] && b[0] == c[0] {
      LexTransitive(a[1..], b[1..], c[1..]);
    }
  }

  /** Any two identities are ordered one way, and a chain of them from first to last. */
  lemma BeforeOrders(a: Key, b: Key, c: Key)
    ensures a != b ==> (Before(a, b) <==> !Before(b, a))
    ensures !Before(a, a)
    ensures Before(a, b) && Before(b, c) ==> Before(a, c)
  {
    LexIrreflexive(a.fold);
    if a.fold != b.fold {
      LexTotal(a.fold, b.fold);
    }
    if LexBefore(a.fold, b.fold) && LexBefore(b.fold, c.fold) {
      LexTransitive(a.fold, b.fold, c.fold);
    }
  }

  // ---- Top rivals ----

  /** `k` beats `j` for the place of top rival. */
  predicate Outranks(rivals: map<Key, nat>, k: Key, j: Key)
    requires k in rivals && j in rivals
  {
    rivals[k] > rivals[j] || (rivals[k] == rivals[j] && Before(k, j))
  }

  /** The most bouts, at least five, and the smallest identity among those with as many. */
  predicate IsTop(rivals: map<Key, nat>, k: Key) {
    && k in rivals && rivals[k] >= RIVALRY_BOUTS
    && forall j :: j in rivals && j != k ==> Outranks(rivals, k, j)
  }

  lemma TopUnique(rivals: map<Key, nat>)
    ensures forall j, k :: IsTop(rivals, j) && IsTop(rivals, k) ==> j == k
  {
    forall j, k | IsTop(rivals, j) && IsTop(rivals, k) ensures j == k {
      BeforeOrders(j, k, k);
    }
  }

  /** The runner collided with most, if at least five times; no order of walking the map matters. */
  function TopRival(rivals: map<Key, nat>): (hit: Option<Key>)
    ensures hit.Some? ==> IsTop(rivals, hit.value)
    ensures hit.None? ==> forall k :: !IsTop(rivals, k)
  {
    if exists k :: k in rivals && IsTop(rivals, k) then
      TopUnique(rivals);
      var k :| k in rivals && IsTop(rivals, k);
      Some(k)
    else None
  }

  lemma TopIs(rivals: map<Key, nat>, k: Key)
    requires IsTop(rivals, k)
    ensures TopRival(rivals) == Some(k)
  {
    TopUnique(rivals);
  }

  /** The top rival so far, walking the map: at least five bouts and nobody met before outranks it. */
  ghost predicate TopSoFar(rivals: map<Key, nat>, met: set<Key>, best: nat, rival: Option<Key>) {
    if rival.None? then best == RIVALRY_BOUTS - 1 && forall j :: j in met && j in rivals ==> rivals[j] <= best
    else
      && rival.value in met && rival.value in rivals && best == rivals[rival.value] >= RIVALRY_BOUTS
      && forall j :: j in met && j in rivals && j != rival.value ==> Outranks(rivals, rival.value, j)
  }

  lemma TopStep(rivals: map<Key, nat>, met: set<Key>, best: nat, rival: Option<Key>, k: Key)
    requires TopSoFar(rivals, met, best, rival) && k in rivals && k !in met
    ensures
      var better := rivals[k] > best || (rivals[k] == best && rival.Some? && Before(k, rival.value));
      if better then TopSoFar(rivals, met + {k}, rivals[k], Some(k)) else TopSoFar(rivals, met + {k}, best, rival)
  {
    if rival.Some? {
      BeforeOrders(k, rival.value, k);
      forall j | j in met && j in rivals ensures Before(k, rival.value) && Before(rival.value, j) ==> Before(k, j) {
        BeforeOrders(k, rival.value, j);
      }
    }
  }

  /** topRival: one walk over the map, in whatever order it comes. */
  method FindTopRival(rivals: map<Key, nat>) returns (rival: Option<Key>)
    ensures rival == TopRival(rivals)
    ensures rival.None? <==> forall k :: k in rivals ==> rivals[k] < RIVALRY_BOUTS
  {
    var best: nat := RIVALRY_BOUTS - 1;
    rival := None;
    var todo := rivals.Keys;
    while todo != {}
      invariant todo <= rivals.Keys
      invariant TopSoFar(rivals, rivals.Keys - todo, best, rival)
      decreases todo
    {
      var k :| k in todo;
      TopStep(rivals, rivals.Keys - todo, best, rival, k);
      if rivals[k] > best || (rivals[k] == best && rival.Some? && Before(k, rival.value)) {
        best, rival := rivals[k], Some(k);
      }
      assert rivals.Keys - (todo - {k}) == rivals.Keys - todo + {k};
      todo := todo - {k};
    }
    if rival.Some? {
      TopIs(rivals, rival.value);
    }
  }
}
