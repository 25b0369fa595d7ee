/**
 Which artifacts fall out of circulation for good: claimed in the registry, but nobody holds them under
 the name it knows.
 */
module Conservation {
  import opened Grid
  import opened Progression
  import opened StoreRows
  import opened Machine
  import opened Invariants
  import opened Economy
  import opened Ticks

  /** The runner holds the slot's artifact under its registered name. */
  predicate Named(p: Runner, slot: Slot) {
    Holds(p, slot) && p.equipment[slot].name == ArtifactName(slot)
  }

  ghost predicate Held(users: map<Key, Runner>, slot: Slot) {
    exists k :: k in users && Named(users[k], slot)
  }

  /** The artifact can neither drop nor be released by whoever holds it, if anybody does. */
  ghost predicate LostForGood(s: State, slot: Slot) {
    ArtifactName(slot) in s.repo.claimed && !Held(s.users, slot)
  }

  /** The change loses no artifact and recovers none. */
  ghost predicate Conserves(s: State, t: State) {
    forall slot :: LostForGood(t, slot) <==> LostForGood(s, slot)
  }

  /** The same artifacts under the same names. */
  predicate SameNamed(p: Runner, q: Runner) {
    forall slot :: Named(q, slot) <==> Named(p, slot)
  }

  // ---- One runner's gear ----

  lemma {:induction false} LoopNamed(p: Runner, m: Meter, r: Rules)
    requires SameNamed(p, WithMeter(p, m))
    ensures SameNamed(p, WithMeter(p, LevelLoop(m, r)))
    decreases m.progress
  {
    if m.progress >= LevelDuration(r, m.level) {
      var q, q' := WithMeter(p, m), WithMeter(p, Promote(m, r));
      forall slot ensures Named(q', slot) <==> Named(p, slot) {
        assert Named(q, slot) <==> Named(p, slot);
        assert slot != SlotFor(m.level + 1) ==> GearIn(q'.equipment, slot) == GearIn(q.equipment, slot);
      }
      LoopNamed(p, Promote(m, r), r);
    }
  }

  lemma AdvanceNamed(p: Runner, now: Time, r: Tuning)
    ensures SameNamed(p, Advance(p, now, r))
  {
    if p.connected {
      var q := Clocked(p, now, r);
      assert WithMeter(q, MeterOf(q)) == q;
      LoopNamed(q, MeterOf(q), r);
      assert forall slot :: Named(q, slot) <==> Named(p, slot);
    }
  }

  /** One runner changes, with the same artifacts. */
  lemma SetConserves(s: State, t: State, k: Key)
    requires k in s.users && k in t.users && t.users == s.users[k := t.users[k]] && SameNamed(s.users[k], t.users[k])
    requires t.repo.claimed == s.repo.claimed
    ensures Conserves(s, t)
  {
    forall slot ensures Held(t.users, slot) <==> Held(s.users, slot) {
      if Held(s.users, slot) {
        var j :| j in s.users && Named(s.users[j], slot);
        assert Named(t.users[j], slot);
      }
      if Held(t.users, slot) {
        var j :| j in t.users && Named(t.users[j], slot);
        assert Named(s.users[j], slot);
      }
    }
  }

  lemma ConservesThrough(s: State, t: State, u: State)
    requires Conserves(s, t) && Conserves(t, u)
    ensures Conserves(s, u)
  {
  }

  lemma ConservesNothing(s: State, t: State)
    requires t.users == s.users && t.repo.claimed == s.repo.claimed
    ensures Conserves(s, t)
  {
    assert forall slot :: Held(t.users, slot) <==> Held(s.users, slot);
  }

  /** Advance a runner and change it without touching gear. */
  lemma ChangeConserves(s: State, t: State, k: Key, now: Time)
    requires k in s.users && k in t.users && t.users == s.users[k := t.users[k]]
    requires t.users[k].equipment == Advance(s.users[k], now, s.rules).equipment
    requires t.repo.claimed == s.repo.claimed
    ensures Conserves(s, t)
  {
    var a := Advance(s.users[k], now, s.rules);
    AdvanceNamed(s.users[k], now, s.rules);
    assert forall slot :: Named(t.users[k], slot) <==> Named(a, slot);
    SetConserves(s, t, k);
  }

  // ---- Drops, burn-outs, theft ----

  lemma AwardConserves(s: State, k: Key, slot: Slot)
    requires k in s.users && ArtifactName(slot) !in s.repo.claimed && !Held(s.users, slot)
    ensures Conserves(s, Award(s, k, slot))
  {
    var t := Award(s, k, slot);
    assert Named(t.users[k], slot);
    forall sl | sl != slot ensures Held(t.users, sl) <==> Held(s.users, sl) {
      assert GearIn(t.users[k].equipment, sl) == GearIn(s.users[k].equipment, sl);
      if Held(s.users, sl) {
        var j :| j in s.users && Named(s.users[j], sl);
        assert Named(t.users[j], sl);
      }
      if Held(t.users, sl) {
        var j :| j in t.users && Named(t.users[j], sl);
        assert Named(s.users[j], sl);
      }
    }
  }

  lemma LootConserves(s: State, k: Key, exclude: Option<ItemName>)
    requires Core(s.users, s.repo.claimed) && k in s.users
    ensures Conserves(s, RareLoot(s, k, exclude))
  {
    var hit := LootSlot(s, k, exclude);
    if hit.Some? {
      UnclaimedUnheld(s.users, s.repo.claimed, hit.value);
      AwardConserves(Skip(Skip(s)), k, hit.value);
      ConservesNothing(s, Skip(Skip(s)));
    } else {
      ConservesNothing(s, RareLoot(s, k, exclude));
    }
  }

  /** Burning out or going dark frees the artifact exactly when the registry knows its name. */
  lemma RetireConserves(s: State, k: Key, slot: Slot)
    requires Core(s.users, s.repo.claimed) && k in s.users && Holds(s.users[k], slot)
    ensures Conserves(s, RetireAt(s, k, slot))
  {
    var t := RetireAt(s, k, slot);
    assert SoundRunner(k, s.users[k], s.repo.claimed) && SoundArtifact(s.users[k], slot, s.repo.claimed);
    forall sl ensures LostForGood(t, sl) <==> LostForGood(s, sl) {
      if sl == slot && Named(s.users[k], slot) {
        assert Held(s.users, slot);
      } else {
        assert Named(t.users[k], sl) <==> Named(s.users[k], sl);
        if Held(s.users, sl) {
          var j :| j in s.users && Named(s.users[j], sl);
          assert Named(t.users[j], sl);
        }
        if Held(t.users, sl) {
          var j :| j in t.users && Named(t.users[j], sl);
          assert Named(s.users[j], sl);
        }
      }
    }
  }

  /** Artifacts are held as before when the one in `slot` merely goes from `l` to `w`. */
  lemma HandedOver(before: map<Key, Runner>, after: map<Key, Runner>, w: Key, l: Key, slot: Slot)
    requires w in before && l in before && w != l && after.Keys == before.Keys
    requires forall j :: j in before && j != w && j != l ==> after[j] == before[j]
    requires forall sl :: sl != slot ==> (Named(after[w], sl) <==> Named(before[w], sl))
    requires forall sl :: sl != slot ==> (Named(after[l], sl) <==> Named(before[l], sl))
    requires (Named(after[w], slot) <==> Named(before[l], slot)) && !Named(before[w], slot) && !Named(after[l], slot)
    ensures forall sl :: Held(after, sl) <==> Held(before, sl)
  {
    forall sl ensures Held(after, sl) <==> Held(before, sl) {
      if Held(before, sl) {
        var j :| j in before && Named(before[j], sl);
        assert Named(after[if sl == slot && j == l then w else j], sl);
      }
      if Held(after, sl) {
        var j :| j in after && Named(after[j], sl);
        assert Named(before[if sl == slot && j == w then l else j], sl);
      }
    }
  }

  lemma StealConserves(s: State, w: Key, l: Key, slot: Slot)
    requires Core(s.users, s.repo.claimed) && w in s.users && l in s.users && w != l && Holds(s.users[l], slot)
    ensures Conserves(s, StealAt(s, w, l, slot))
  {
    assert !Holds(s.users[w], slot);
    HandedOver(s.users, StealAt(s, w, l, slot).users, w, l, slot);
  }

  // ---- One runner's turn in the tick ----

  /** Gear passes through except that a leak garbles the name in the decks of the linked runners it hits. */
  ghost predicate GearBut(s: State, t: State, hit: seq<Key>) {
    && t.users.Keys == s.users.Keys && t.repo.claimed == s.repo.claimed
    && forall k, slot :: k in s.users ==>
         (Named(t.users[k], slot) <==> Named(s.users[k], slot) && !(slot == Deck && k in hit && s.users[k].connected))
  }

  ghost predicate SameGear(s: State, t: State) { GearBut(s, t, []) }

  lemma SameGearConserves(s: State, t: State)
    requires SameGear(s, t)
    ensures Conserves(s, t)
  {
    forall slot ensures Held(t.users, slot) <==> Held(s.users, slot) {
      if Held(s.users, slot) {
        var j :| j in s.users && Named(s.users[j], slot);
        assert Named(t.users[j], slot);
      }
      if Held(t.users, slot) {
        var j :| j in t.users && Named(t.users[j], slot);
        assert Named(s.users[j], slot);
      }
    }
  }

  lemma SameGearThrough(s: State, t: State, u: State)
    requires SameGear(s, t) && SameGear(t, u)
    ensures SameGear(s, u)
  {
  }

  /** Advance a runner and change it without touching gear. */
  lemma ChangeSameGear(s: State, t: State, k: Key, now: Time)
    requires k in s.users && k in t.users && t.users == s.users[k := t.users[k]]
    requires t.users[k].equipment == Advance(s.users[k], now, s.rules).equipment
    requires t.repo.claimed == s.repo.claimed
    ensures SameGear(s, t)
  {
    AdvanceNamed(s.users[k], now, s.rules);
    var a := Advance(s.users[k], now, s.rules);
    assert forall slot :: Named(t.users[k], slot) <==> Named(a, slot);
  }

  lemma IdleConserves(s: State, t: State, k: Key)
    requires k in s.users && k in t.users && t.users == s.users[k := t.users[k]]
    requires t.users[k].equipment == s.users[k].equipment && t.repo.claimed == s.repo.claimed
    ensures Conserves(s, t)
  {
    assert SameNamed(s.users[k], t.users[k]);
    SetConserves(s, t, k);
  }

  lemma EncounterConserves(t: TS, k: Key, champion: Faction)
    requires Kept(t.s, {k}) && k in t.s.users
    ensures Conserves(t.s, Encounter(t, k, champion).s)
  {
    var s, p := t.s, t.s.users[k];
    var rng := Rest(s.rng);
    if Draw(s.rng, 100) < IceWinChance(p, champion) {
      var q := IceWon(p, Draw(rng, 25) == 0, s.rules);
      var s1 := SetAt(s, k, q).(rng := Rest(rng));
      IceCarries(p, Draw(rng, 25) == 0, s.rules);
      SetWorks(s, k, q, {k});
      IdleConserves(s, s1, k);
      LootConserves(s1, k, None);
    } else {
      IdleConserves(s, Encounter(t, k, champion).s, k);
    }
  }

  lemma EncounterStepConserves(t: TS, k: Key, now: Time, champion: Faction)
    requires Kept(t.s, {k}) && k in t.s.users
    ensures Conserves(t.s, EncounterStep(t, k, now, champion).s)
  {
    if Due(t.s.users[k].nextEncounterAt, now) {
      var s := Encounter(t, k, champion).s;
      EncounterConserves(t, k, champion);
      EncounterKeeps(t, k, champion);
      RearmConserves(s, k, now);
    }
  }

  lemma RearmConserves(s: State, k: Key, now: Time)
    requires k in s.users
    ensures Conserves(s, Rearm(s, k, now))
  {
    var t := SetAt(s, k, Rearmed(s.users[k], now, s.rules));
    IdleConserves(s, t, k);
    ChangeConserves(t, Rearm(s, k, now), k, now);
  }

  lemma AccrueConserves(t: TS, k: Key, now: Time)
    requires k in t.s.users
    ensures Conserves(t.s, StreakStep(t.(s := AdvanceAt(t.s, k, now)), k, now).s)
  {
    ChangeConserves(t.s, StreakStep(t.(s := AdvanceAt(t.s, k, now)), k, now).s, k, now);
  }

  lemma DriftConserves(t: TS, k: Key, now: Time)
    requires k in t.s.users
    ensures Conserves(t.s, DriftStep(t, k, now).s)
  {
    IdleConserves(t.s, DriftStep(t, k, now).s, k);
  }

  lemma WanderConserves(t: TS, k: Key, now: Time)
    requires Kept(t.s, {}) && k in t.s.users
    ensures var u := DriftStep(StreakStep(t.(s := AdvanceAt(t.s, k, now)), k, now), k, now);
            Conserves(t.s, u.s) && Kept(u.s, {k}) && k in u.s.users
  {
    var u := StreakStep(t.(s := AdvanceAt(t.s, k, now)), k, now);
    AccrueKeeps(t, k, now);
    AccrueConserves(t, k, now);
    DriftKeeps(u, k, now);
    DriftConserves(u, k, now);
    ConservesThrough(t.s, u.s, DriftStep(u, k, now).s);
  }

  lemma PassiveConserves(t: TS, k: Key, now: Time, champion: Faction)
    requires Kept(t.s, {}) && k in t.s.users
    ensures Conserves(t.s, PassiveStep(t, k, now, champion).s)
  {
    var u := DriftStep(StreakStep(t.(s := AdvanceAt(t.s, k, now)), k, now), k, now);
    WanderConserves(t, k, now);
    EncounterStepConserves(u, k, now, champion);
    ConservesThrough(t.s, u.s, EncounterStep(u, k, now, champion).s);
  }

  lemma BurnSlotConserves(t: TS, k: Key, slot: Slot)
    requires Kept(t.s, {k}) && k in t.s.users
    ensures Conserves(t.s, BurnSlot(t, k, slot).s)
  {
    if BurnsOut(t.s.users[k], slot) {
      var s, name := RetireAt(t.s, k, slot), t.s.users[k].equipment[slot].name;
      RetireConserves(t.s, k, slot);
      RetireKeeps(t.s, k, slot, {k});
      LootConserves(s, k, Some(name));
      ConservesThrough(t.s, s, RareLoot(s, k, Some(name)));
    }
  }

  lemma {:induction false} BurnSlotsConserve(t: TS, k: Key, n: nat)
    requires Kept(t.s, {k}) && k in t.s.users && n <= |SLOTS|
    ensures Conserves(t.s, BurnSlots(t, k, n).s)
  {
    if n > 0 {
      BurnSlotsConserve(t, k, n - 1);
      BurnSlotsKeep(t, k, n - 1, {k});
      BurnSlotConserves(BurnSlots(t, k, n - 1), k, SLOTS[n - 1]);
      ConservesThrough(t.s, BurnSlots(t, k, n - 1).s, BurnSlots(t, k, n).s);
    }
  }

  lemma LiveStepConserves(t: TS, k: Key, now: Time, champion: Faction)
    requires Kept(t.s, {}) && k in t.s.users
    ensures Conserves(t.s, LiveStep(t, k, now, champion).s)
  {
    var u := PassiveStep(t, k, now, champion);
    PassiveConserves(t, k, now, champion);
    PassiveKeeps(t, k, now, champion);
    UpkeepConserves(u, k);
    ConservesThrough(t.s, u.s, UpkeepStep(u, k).s);
  }

  lemma UpkeepConserves(t: TS, k: Key)
    requires Kept(t.s, {k}) && k in t.s.users
    ensures Conserves(t.s, UpkeepStep(t, k).s)
  {
    var t1 := TakePending(t);
    BurnSlotsConserve(t1, k, |SLOTS|);
    ConservesNothing(BurnSlots(t1, k, |SLOTS|).s, UpkeepStep(t, k).s);
    ConservesNothing(t.s, t1.s);
  }

  lemma {:induction false} RetireSlotsConserve(t: TS, k: Key, n: nat)
    requires Kept(t.s, {k}) && k in t.s.users && n <= |SLOTS|
    ensures Conserves(t.s, RetireSlots(t, k, n).s)
  {
    if n > 0 {
      RetireSlotsConserve(t, k, n - 1);
      RetireSlotsKeep(t, k, n - 1, {k});
      var u, slot := RetireSlots(t, k, n - 1), SLOTS[n - 1];
      if Holds(u.s.users[k], slot) {
        RetireConserves(u.s, k, slot);
        ConservesThrough(t.s, u.s, RetireSlots(t, k, n).s);
      }
    }
  }

  lemma AbandonConserves(t: TS, k: Key)
    requires Kept(t.s, {}) && k in t.s.users
    ensures Conserves(t.s, Abandon(t, k).s)
  {
    KeptGrows(t.s, {}, {k});
    RetireSlotsConserve(TS(t.s, []), k, |SLOTS|);
    ConservesNothing(RetireSlots(TS(t.s, []), k, |SLOTS|).s, Abandon(t, k).s);
  }

  /** Pruning a guest loses the artifacts it holds. */
  lemma PruneLoses(s: State, k: Key, slot: Slot)
    requires Core(s.users, s.repo.claimed) && k in s.users
    ensures LostForGood(PruneAt(s, k), slot) <==> LostForGood(s, slot) || Named(s.users[k], slot)
  {
    var users := s.users - {k};
    if Named(s.users[k], slot) {
      assert SoundRunner(k, s.users[k], s.repo.claimed) && SoundArtifact(s.users[k], slot, s.repo.claimed);
    } else if Held(s.users, slot) {
      var j :| j in s.users && Named(s.users[j], slot);
      assert j in users && Named(users[j], slot);
    }
  }

  ghost predicate PrunedWith(p: Runner, now: Time, r: Rules, slot: Slot) {
    Pruned(p, now, r) && Named(p, slot)
  }

  /** A runner who is not pruned keeps every artifact in circulation. */
  lemma RunnerStepConserves(t: TS, k: Key, now: Time, champion: Faction)
    requires Kept(t.s, {}) && k in t.s.users && !Pruned(t.s.users[k], now, t.s.rules)
    ensures Conserves(t.s, RunnerStep(t, k, now, champion).s)
  {
    if OfflineLonger(t.s.users[k], now, t.s.rules.artifactRelease) {
      AbandonConserves(t, k);
    } else if t.s.users[k].connected {
      LiveStepConserves(t, k, now, champion);
    }
  }

  lemma RunnerStepLoses(t: TS, k: Key, now: Time, champion: Faction, slot: Slot)
    requires Kept(t.s, {})
    ensures LostForGood(RunnerStep(t, k, now, champion).s, slot)
       <==> LostForGood(t.s, slot) || (k in t.s.users && PrunedWith(t.s.users[k], now, t.s.rules, slot))
  {
    if k in t.s.users {
      if Pruned(t.s.users[k], now, t.s.rules) {
        PruneLoses(t.s, k, slot);
      } else {
        RunnerStepConserves(t, k, now, champion);
      }
    }
  }

  /** The walk over the runners touches those it has reached, and loses what pruned guests among them hold. */
  lemma {:induction false} RunnerStepsLose(t: TS, order: seq<Key>, now: Time, champion: Faction, slot: Slot)
    requires Kept(t.s, {}) && forall i, j :: 0 <= i < j < |order| ==> order[i] != order[j]
    ensures var u := RunnerSteps(t, order, now, champion);
            && (forall k :: k !in order ==> RowOf(u.s.users, k) == RowOf(t.s.users, k)) && u.s.rules == t.s.rules
            && (LostForGood(u.s, slot) <==>
                  LostForGood(t.s, slot)
                  || exists k :: k in order && k in t.s.users && PrunedWith(t.s.users[k], now, t.s.rules, slot))
  {
    if order != [] {
      var rest, k := order[..|order| - 1], order[|order| - 1];
      RunnerStepsLose(t, rest, now, champion, slot);
      RunnerStepsKeep(t, rest, now, champion);
      var u := RunnerSteps(t, rest, now, champion);
      RunnerStepKeeps(u, k, now, champion);
      RunnerStepLoses(u, k, now, champion, slot);
      assert order == rest + [k] && k !in rest;
      assert RowOf(u.s.users, k) == RowOf(t.s.users, k);
    }
  }

  // ---- Collisions ----

  lemma RecordConserves(s: State, a: Key, b: Key)
    requires a in s.users && b in s.users && a != b
    ensures Conserves(s, RecordBout(s, a, b))
  {
    var s1 := SetAt(s, a, CountBout(s.users[a], b));
    IdleConserves(s, s1, a);
    IdleConserves(s1, RecordBout(s, a, b), b);
    ConservesThrough(s, s1, RecordBout(s, a, b));
  }

  lemma LostNamed(p: Runner, kind: nat, r: Rules)
    ensures SameNamed(p, Machine.Lost(p, kind, r))
  {
  }

  lemma BlowsConserve(s: State, w: Key, l: Key)
    requires w in s.users && l in s.users && w != l
    ensures Conserves(s, Blows(s, w, l))
  {
    var kind := Draw(Rest(s.rng), 4);
    var s1 := SetAt(s, w, Won(s.users[w], kind, Draw(s.rng, 20) == 0, s.rules));
    IdleConserves(s, s1, w);
    LostNamed(s1.users[l], kind, s.rules);
    SetConserves(s1, Blows(s, w, l), l);
    ConservesThrough(s, s1, Blows(s, w, l));
  }

  lemma TheftConserves(s: State, w: Key, l: Key)
    requires Core(s.users, s.repo.claimed) && w in s.users && l in s.users && w != l
    ensures Conserves(s, Theft(s, w, l))
  {
    var hit := TheftSlot(s, l);
    if hit.Some? {
      StealConserves(Skip(Skip(s)), w, l, hit.value);
      ConservesNothing(s, Skip(Skip(s)));
      ConservesThrough(s, Skip(Skip(s)), Theft(s, w, l));
    } else {
      ConservesNothing(s, Theft(s, w, l));
    }
  }

  lemma SeparateConserves(s: State, w: Key, l: Key, now: Time)
    requires w in s.users && l in s.users && w != l
    ensures Conserves(s, Separate(s, w, l, now))
  {
    var s1 := CooledDown(s, w, now);
    IdleConserves(s, s1, w);
    IdleConserves(s1, Separate(s, w, l, now), l);
    ConservesThrough(s, s1, Separate(s, w, l, now));
  }

  lemma AftermathConserves(t: TS, w: Key, l: Key, now: Time, round: Option<nat>)
    requires Kept(t.s, {w, l}) && w in t.s.users && l in t.s.users && w != l
    ensures Conserves(t.s, Aftermath(t, w, l, now, round).s)
  {
    var s1 := Blows(t.s, w, l);
    var s2 := Theft(s1, w, l);
    BlowsKeep(t.s, w, l);
    TheftKeeps(s1, w, l);
    BlowsConserve(t.s, w, l);
    TheftConserves(s1, w, l);
    SeparateConserves(s2, w, l, now);
    ConservesThrough(t.s, s1, s2);
    ConservesThrough(t.s, s2, Separate(s2, w, l, now));
  }

  lemma BoutConserves(t: TS, a: Key, b: Key, now: Time)
    requires Kept(t.s, {}) && a in t.s.users && b in t.s.users && a != b
    ensures Conserves(t.s, Bout(t, a, b, now).s)
  {
    KeptGrows(t.s, {}, {a, b});
    RecordKeeps(t.s, a, b);
    RecordConserves(t.s, a, b);
    var s := RecordBout(t.s, a, b);
    var u := t.(s := Skip(Skip(s)));
    ConservesNothing(s, u.s);
    ConservesThrough(t.s, s, u.s);
    assert {a, b} == {b, a};
    if Upset(s, a, b) {
      AftermathConserves(u, b, a, now, Round(s.users, a, b));
    } else {
      AftermathConserves(u, a, b, now, Round(s.users, a, b));
    }
    ConservesThrough(t.s, u.s, Bout(t, a, b, now).s);
  }

  lemma CollisionConserves(t: TS, now: Time, order: seq<Key>, poolOrder: seq<Key>)
    requires Kept(t.s, {})
    ensures Conserves(t.s, CollisionStep(t, now, order, poolOrder).s)
  {
    var due := CollisionDue(t.s.users, order, now);
    if due != [] {
      var a := due[Draw(t.s.rng, |due|)];
      assert a in due;
      var s := Skip(t.s);
      var pool := Pool(s.users, poolOrder, a);
      if pool != [] {
        var (b, rng) := Opponent(s, pool, a);
        ConservesNothing(t.s, s.(rng := rng));
        BoutConserves(t.(s := s.(rng := rng)), a, b, now);
        ConservesThrough(t.s, s.(rng := rng), CollisionStep(t, now, order, poolOrder).s);
      } else {
        ConservesNothing(t.s, s);
      }
    } else {
      ConservesNothing(t.s, t.s);
    }
  }
}
