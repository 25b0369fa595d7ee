/** Stripping the static off a broadcast leaves the code that claims the dead drop. */
module DeadDrops {
  import opened Grid
  import opened Machine

  /** What is left of a broadcast without its noise. */
  function Strip(garbled: string): string {
    if garbled == [] then []
    else (if garbled[0] in DROP_NOISE then [] else [garbled[0]]) + Strip(garbled[1..])
  }

  lemma AlphabetIsClean(i: nat)
    requires i < |DROP_ALPHABET|
    ensures DROP_ALPHABET[i] !in DROP_NOISE
  {
  }

  /** The clean code can be read off the broadcast, letter by letter. */
  lemma {:induction false} StripReadsCode(rng: Rng, n: nat)
    ensures var (code, garbled, rest) := DropCode(rng, n);
            && Strip(garbled) == code && |code| == n && (n > 0 ==> |garbled| == 2 * n - 1)
            && forall c <- code :: c in DROP_ALPHABET
  {
    if n > 0 {
      var c := DROP_ALPHABET[Draw(rng, 21)];
      AlphabetIsClean(Draw(rng, 21));
      if n > 1 {
        var noise := DROP_NOISE[Draw(Rest(rng), 8)];
        StripReadsCode(Rest(Rest(rng)), n - 1);
        StripPair(c, noise, DropCode(Rest(Rest(rng)), n - 1).1);
      } else {
        assert [c][1..] == [];
      }
    }
  }

  lemma StripPair(c: char, noise: char, rest: string)
    requires c !in DROP_NOISE && noise in DROP_NOISE
    ensures Strip([c, noise] + rest) == [c] + Strip(rest)
  {
    var all := [c, noise] + rest;
    assert all[1..] == [noise] + rest && all[1..][1..] == rest;
  }

  /**
   While the frequency it was broadcast on is open and nobody was faster, a linked runner who transmits the
   stripped broadcast on the game channel claims the drop; any other text claims nothing.
   */
  lemma StrippedClaims(t: TS, now: Time, later: Time, identity: Option<Key>, nick: Name, text: string, order: seq<Key>)
    requires later < now + t.s.rules.pirateDuration
    ensures var u := OpenPirateFrequency(t, now);
            && u.out != [] && u.out[|u.out| - 1].PirateFrequency?
            && var hit := Find(u.s.users, identity, nick, order);
               ClaimHit(u.s, identity, nick, u.s.rules.gameChannel, text, later, order)
                 == if hit.Some? && u.s.users[hit.value].connected && text == Strip(u.out[|u.out| - 1].garbled)
                    then hit else None
  {
    hide Find;
    StripReadsCode(t.s.rng, DROP_LENGTH);
  }

  /** A code has five letters; once its frequency has closed it claims nothing any more. */
  lemma CodesAreFive(t: TS, now: Time, later: Time, identity: Option<Key>, nick: Name, channel: Name, text: string,
                     order: seq<Key>)
    ensures var s := OpenPirateFrequency(t, now).s;
            && s.world.deadDrop.Some? && |s.world.deadDrop.value| == 5
            && (later >= now + t.s.rules.pirateDuration || !EqualFold(channel, s.rules.gameChannel) ==>
                  ClaimHit(s, identity, nick, channel, text, later, order).None?)
  {
    hide Find, DropCode;
    StripReadsCode(t.s.rng, DROP_LENGTH);
  }
}
