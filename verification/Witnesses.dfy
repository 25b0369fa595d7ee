/** States in which the game falls short: artifacts lost for good, and a runner with two seats on one contract. */
module Witnesses {
  import opened Grid
  import opened Progression
  import opened StoreRows
  import opened Machine
  import opened Invariants
  import opened Conservation
  import opened Losses
  import opened Paths
  import opened Runs
  import Contracts
  import Ledger

  const NICK: Name := Name("ghost", "Ghost")
  const GHOST: Key := Guest("ghost")
  const OWNER: Key := Acct("ghost")

  /** A runner who has just joined, with the deck it dropped. */
  function Decked(rules: Tuning): Runner {
    NewRunner(GHOST, NICK, None, SECOND, rules).(equipment := map[Deck := FreshArtifact(Deck, 1, 4)])
  }

  /** An engine whose runners are those given, with the deck registered and everything saved. */
  function Saved(rules: Tuning, users: map<Key, Runner>, w: World, rng: Rng): State {
    State(rules, users, Repo(map k | k in users :: Stored(users[k]), map[ArtifactName(Deck) := GHOST], StoredWorld(w)),
          w, [], map[], rng)
  }

  /** An engine with nobody but the holder of the deck. */
  lemma LoneIsSound(rules: Tuning, p: Runner, w: World, rng: Rng)
    requires p == Decked(rules).(connected := p.connected)
    ensures var s := Saved(rules, map[GHOST := p], w, rng);
            Inv(s) && Named(s.users[GHOST], Deck) && !LostForGood(s, Deck)
  {
    var s := Saved(rules, map[GHOST := p], w, rng);
    forall slot ensures SoundArtifact(p, slot, s.repo.claimed) {
      assert slot != Deck ==> GearIn(p.equipment, slot) == NO_ITEM;
    }
    assert SoundRunner(GHOST, s.users[GHOST], s.repo.claimed);
    assert Named(s.users[GHOST], Deck);
  }

  // ---- Artifacts lost for good ----

  /** A tick prunes a guest not seen for longer than guests are kept, and its deck stays claimed without a holder. */
  lemma PruningLosesForGood(rules: Tuning)
    ensures var s := Saved(rules, map[GHOST := Decked(rules)], EMPTY_WORLD, []);
            var ord := Orders([GHOST], [GHOST], [GHOST], [GHOST], [GHOST]);
            var t := Tick(s, SECOND + rules.guestRetention + 1, ord, Unaffiliated);
            Inv(s) && !LostForGood(s, Deck) && LostForGood(t, Deck)
  {
    hide Tick, Leaks, Inv, LostForGood;
    var s := Saved(rules, map[GHOST := Decked(rules)], EMPTY_WORLD, []);
    var now := SECOND + rules.guestRetention + 1;
    LoneIsSound(rules, Decked(rules), EMPTY_WORLD, []);
    assert PrunedWith(s.users[GHOST], now, s.rules, Deck);
    TickConserves(s, now, Orders([GHOST], [GHOST], [GHOST], [GHOST], [GHOST]), Unaffiliated, Deck);
  }

  /** A world whose next city event is due. */
  const RESTLESS: World := EMPTY_WORLD.(nextCityEventAt := SECOND)

  lemma LeakDrawn(s: State, ord: Orders)
    requires s.world == RESTLESS && s.rng == [1, 1, 2]
    ensures Leaks(s, SECOND, ord)
  {
    assert BeforeEvent(s, SECOND, ord) == TS(s.(pending := []), []);
    assert Rest(s.rng) == [1, 2] && Rest(Rest(s.rng)) == [2];
  }

  /** A tick that draws a data leak garbles the deck of the linked runner who holds it. */
  lemma LeakLosesForGood(rules: Tuning)
    ensures var s := Saved(rules, map[GHOST := Decked(rules).(connected := true)], RESTLESS, [1, 1, 2]);
            var ord := Orders([GHOST], [GHOST], [GHOST], [GHOST], [GHOST]);
            Inv(s) && !LostForGood(s, Deck) && LostForGood(Tick(s, SECOND, ord, Unaffiliated), Deck)
  {
    hide Tick, Leaks, Inv, LostForGood;
    var p, ord := Decked(rules).(connected := true), Orders([GHOST], [GHOST], [GHOST], [GHOST], [GHOST]);
    var s := Saved(rules, map[GHOST := p], RESTLESS, [1, 1, 2]);
    LoneIsSound(rules, p, RESTLESS, [1, 1, 2]);
    LeakDrawn(s, ord);
    TickConserves(s, SECOND, ord, Unaffiliated, Deck);
  }

  /** The account of the same user, offline, with a better deck that is no artifact. */
  function Veteran(rules: Tuning): Runner {
    NewRunner(OWNER, NICK, Some(NICK), SECOND, rules).(level := 20, equipment := map[Deck := StandardItem(Deck, 20)])
  }

  /** Guest and account of one user, both offline, with a contract they are both on. */
  function Twofold(rules: Tuning): State {
    var team := Contract([GHOST, OWNER], SECOND, false, None);
    Saved(rules, map[GHOST := Decked(rules), OWNER := Veteran(rules)], EMPTY_WORLD.(contract := Some(team)), [])
  }

  lemma TwofoldIsSound(rules: Tuning)
    ensures Inv(Twofold(rules)) && !LostForGood(Twofold(rules), Deck)
  {
    var s := Twofold(rules);
    forall k, slot | k in s.users ensures SoundArtifact(s.users[k], slot, s.repo.claimed) {
      assert slot != Deck ==> GearIn(s.users[k].equipment, slot) == NO_ITEM;
    }
    forall k | k in s.users ensures SoundRunner(k, s.users[k], s.repo.claimed) {
    }
    assert forall k, slot :: k in s.users && Holds(s.users[k], slot) ==> k == GHOST;
    assert Named(s.users[GHOST], Deck);
  }

  /** Nobody is linked, so the guest is found by nick and account agreeing. */
  lemma GuestFound(rules: Tuning)
    ensures JoinFrom(Twofold(rules), NICK, Some(NICK), [GHOST, OWNER]) == Some(GHOST)
  {
    var users := Twofold(rules).users;
    assert FirstConnected(users, NICK, [OWNER]).None?;
    assert [GHOST, OWNER][1..] == [OWNER];
  }

  /** Joining with the account merges the guest into it, and the account's better deck displaces the artifact. */
  lemma MergeLosesForGood(rules: Tuning)
    ensures var s := Twofold(rules);
            Inv(s) && !LostForGood(s, Deck) && LostForGood(Join(s, NICK, Some(NICK), SECOND, [GHOST, OWNER]), Deck)
  {
    hide Join, JoinFrom, Inv, LostForGood;
    var s := Twofold(rules);
    TwofoldIsSound(rules);
    GuestFound(rules);
    assert MergeLoses(Advance(s.users[GHOST], SECOND, rules), s.users[OWNER], Deck);
    JoinedLoses(s);
  }

  lemma JoinedLoses(s: State)
    requires Inv(s) && JoinLoses(s, NICK, Some(NICK), SECOND, [GHOST, OWNER], Deck)
    ensures LostForGood(Join(s, NICK, Some(NICK), SECOND, [GHOST, OWNER]), Deck)
  {
    hide Join, JoinFrom, LostForGood;
    JoinConserves(s, NICK, Some(NICK), SECOND, [GHOST, OWNER], Deck);
  }

  // ---- Two seats ----

  /**
   Guest and account on the same contract become one runner with two seats, and the contract pays it twice, the
   second time at the level the first share brought it to.
   */
  lemma TwoSeatsTwoShares(rules: Tuning)
    ensures var t := Join(Twofold(rules), NICK, Some(NICK), SECOND, [GHOST, OWNER]);
            && t.world.contract.Some? && t.world.contract.value.participants == [OWNER, OWNER]
            && OWNER in t.users && ContractDue(t.world, SECOND)
            && var a := Advance(t.users[OWNER], SECOND, t.rules);
               var b := Advance(Settled(a, ContractHeld(t), t.rules), SECOND, t.rules);
               Ledger.ContractAward(t, SECOND, OWNER)
                 == Ledger.SettleAmount(a, ContractHeld(t), t.rules) + Ledger.SettleAmount(b, ContractHeld(t), t.rules)
  {
    hide Join, JoinFrom, Inv, LostForGood, Ledger.SettleAmount, Advance, Settled, ContractHeld;
    var s := Twofold(rules);
    TwofoldIsSound(rules);
    GuestFound(rules);
    JoinedTwice(s);
    var t := Join(s, NICK, Some(NICK), SECOND, [GHOST, OWNER]);
    assert multiset(t.world.contract.value.participants)[OWNER] == 2;
    assert OWNER in t.users by { Joined(s); }
    var p, held := t.users[OWNER], ContractHeld(t);
    assert Ledger.SettleAward(p, 1, held, SECOND, t.rules)
        == Ledger.SettleAmount(Advance(p, SECOND, t.rules), held, t.rules);
  }

  lemma JoinedTwice(s: State)
    requires Inv(s) && JoinFrom(s, NICK, Some(NICK), [GHOST, OWNER]) == Some(GHOST)
    requires s.world.contract == Some(Contract([GHOST, OWNER], SECOND, false, None))
    ensures var t := Join(s, NICK, Some(NICK), SECOND, [GHOST, OWNER]);
            && t.world.contract.Some? && t.world.contract.value.endsAt == SECOND
            && t.world.contract.value.participants == [OWNER, OWNER]
  {
    hide Join, JoinFrom;
    Contracts.JoinContract(s, NICK, Some(NICK), SECOND, [GHOST, OWNER]);
  }

  lemma Joined(s: State)
    requires Inv(s) && OWNER in s.users
    ensures OWNER in Join(s, NICK, Some(NICK), SECOND, [GHOST, OWNER]).users
  {
    hide Join, JoinFrom;
    JoinKnows(s, NICK, Some(NICK), SECOND, [GHOST, OWNER]);
  }
}
