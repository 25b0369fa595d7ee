/** Who meets whom in a collision, who wins, and what winning and losing mean. */
module Bouts {
  import opened Grid
  import opened Progression
  import opened StoreRows
  import opened Machine
  import opened Rivals
  import Economy

  // ---- Who wins ----

  /** The bout with these draws still to come. */
  function Drawn(t: TS, rng: Rng): TS { t.(s := t.s.(rng := rng)) }

  /** The announcement of the bout names the winner first. */
  predicate Names(m: Msg, winner: Name, loser: Name) { m.Collision? && m.winner == winner && m.loser == loser }

  /** In the bout between `a` and `b` the meter of `x` rises and that of `y` falls, and it is announced so. */
  ghost predicate Beats(t: TS, a: Key, b: Key, now: Time, x: Key, y: Key)
    requires a in t.s.users && b in t.s.users && a != b && x in t.s.users && y in t.s.users
  {
    var u := Bout(t, a, b, now);
    && x in u.s.users && y in u.s.users
    && u.s.users[x].progress > t.s.users[x].progress && u.s.users[y].progress < t.s.users[y].progress
    && |u.out| == |t.out| + 1
    && Names(u.out[|t.out|], DisplayName(t.s.users[x]), DisplayName(t.s.users[y]))
  }

  /** A win pays and a loss costs, whatever the kind of bout. */
  lemma BlowsCount(p: Runner, kind: nat, scarred: bool, r: Rules)
    ensures Won(p, kind, scarred, r).progress >= p.progress + 15
    ensures Lost(p, kind, r).progress <= p.progress - 3
    ensures DisplayName(Won(p, kind, scarred, r)) == DisplayName(p)
    ensures DisplayName(Lost(p, kind, r)) == DisplayName(p)
  {
    hide LevelDuration, AppendUnique, ClampHeat, DamagedDrone;
  }

  lemma BlowsBeat(s: State, w: Key, l: Key)
    requires w in s.users && l in s.users && w != l
    ensures var t := Blows(s, w, l);
            && t.users.Keys == s.users.Keys
            && t.users[w].progress > s.users[w].progress && t.users[l].progress < s.users[l].progress
            && DisplayName(t.users[w]) == DisplayName(s.users[w]) && DisplayName(t.users[l]) == DisplayName(s.users[l])
  {
    hide Won, Lost, DisplayName;
    var kind, scarred := Draw(Rest(s.rng), 4), Draw(s.rng, 20) == 0;
    BlowsCount(s.users[w], kind, scarred, s.rules);
    BlowsCount(s.users[l], kind, scarred, s.rules);
  }

  /** Theft and parting move no meter. */
  lemma PartingMovesNoMeter(s: State, w: Key, l: Key, now: Time)
    requires w in s.users && l in s.users && w != l
    ensures var t := Separate(Theft(s, w, l), w, l, now);
            && t.users.Keys == s.users.Keys
            && t.users[w].progress == s.users[w].progress && t.users[l].progress == s.users[l].progress
  {
    hide StandardItem, UniqueSlots, TheftSlot, Max, Transfer, Stored;
  }

  lemma AftermathBeats(t: TS, w: Key, l: Key, now: Time, round: Option<nat>)
    requires w in t.s.users && l in t.s.users && w != l
    ensures var u := Aftermath(t, w, l, now, round);
            && w in u.s.users && l in u.s.users
            && u.s.users[w].progress > t.s.users[w].progress && u.s.users[l].progress < t.s.users[l].progress
            && |u.out| == |t.out| + 1
            && Names(u.out[|t.out|], DisplayName(t.s.users[w]), DisplayName(t.s.users[l]))
  {
    hide Blows, Theft, Separate, TheftSlot, DisplayName;
    BlowsBeat(t.s, w, l);
    PartingMovesNoMeter(Blows(t.s, w, l), w, l, now);
  }

  /** Counting the bout changes neither strength, meter nor name. */
  lemma CountingIsIdle(p: Runner, rival: Key)
    ensures var q := CountBout(p, rival);
            CollisionPower(q) == CollisionPower(p) && q.progress == p.progress && DisplayName(q) == DisplayName(p)
  {
    hide EquipmentRating;
  }

  /** The stronger side after the draws wins; the initiator wins a tie. */
  lemma StrongerWins(t: TS, a: Key, b: Key, now: Time)
    requires a in t.s.users && b in t.s.users && a != b
    ensures var p, q := CollisionPower(t.s.users[a]), CollisionPower(t.s.users[b]);
            var db, da := Draw(t.s.rng, 5), Draw(Rest(t.s.rng), 5);
            if p + da >= q + db then Beats(t, a, b, now, a, b) else Beats(t, a, b, now, b, a)
  {
    hide Aftermath, CollisionPower, CountBout, Round, Draw, Rest, DisplayName;
    CountingIsIdle(t.s.users[a], b);
    CountingIsIdle(t.s.users[b], a);
    var s := RecordBout(t.s, a, b);
    var u := t.(s := Skip(Skip(s)));
    if Upset(s, a, b) {
      AftermathBeats(u, b, a, now, Round(s.users, a, b));
    } else {
      AftermathBeats(u, a, b, now, Round(s.users, a, b));
    }
  }

  lemma NotBoth(t: TS, a: Key, b: Key, now: Time)
    requires a in t.s.users && b in t.s.users && a != b
    ensures !(Beats(t, a, b, now, a, b) && Beats(t, a, b, now, b, a))
  {
    hide Bout, DisplayName;
  }

  /**
   The initiator wins on every draw exactly if its strength is at least the other's and four, and the other does
   exactly if its own is at least the initiator's and five.
   */
  lemma StrengthDecides(t: TS, a: Key, b: Key, now: Time)
    requires a in t.s.users && b in t.s.users && a != b
    ensures var p, q := CollisionPower(t.s.users[a]), CollisionPower(t.s.users[b]);
            && ((forall rng :: Beats(Drawn(t, rng), a, b, now, a, b)) <==> p >= q + 4)
            && ((forall rng :: Beats(Drawn(t, rng), a, b, now, b, a)) <==> q >= p + 5)
  {
    hide Beats, CollisionPower;
    var p, q := CollisionPower(t.s.users[a]), CollisionPower(t.s.users[b]);
    forall rng
      ensures p >= q + 4 ==> Beats(Drawn(t, rng), a, b, now, a, b)
      ensures q >= p + 5 ==> Beats(Drawn(t, rng), a, b, now, b, a)
    {
      StrongerWins(Drawn(t, rng), a, b, now);
    }
    var best, worst: Rng := [0, 4], [4, 0];
    assert Rest(best) == [4] && Rest(worst) == [0];
    StrongerWins(Drawn(t, worst), a, b, now);
    NotBoth(Drawn(t, worst), a, b, now);
    StrongerWins(Drawn(t, best), a, b, now);
    NotBoth(Drawn(t, best), a, b, now);
  }

  // ---- What strength is ----

  /** The same runner with another level or rating point. */
  predicate Improved(p: Runner, q: Runner) {
    && q.level + EquipmentRating(q.equipment) > p.level + EquipmentRating(p.equipment)
    && q.heat == p.heat && q.scars == p.scars && q.faction == p.faction && q.district == p.district
  }

  /** Another level or rating point, a hotter runner and an adrenal gland make stronger; a burned optic makes weaker. */
  lemma StrengthGrows(p: Runner, q: Runner)
    ensures Improved(p, q) ==> CollisionPower(q) > CollisionPower(p)
    ensures q == p.(heat := q.heat) && q.heat >= p.heat ==> CollisionPower(q) >= CollisionPower(p)
    ensures SyntheticAdrenalGland !in p.scars ==>
              CollisionPower(p.(scars := p.scars + [SyntheticAdrenalGland])) > CollisionPower(p)
    ensures BurnedOptic !in p.scars ==> CollisionPower(p.(scars := p.scars + [BurnedOptic])) < CollisionPower(p)
  {
    hide EquipmentRating;
  }

  /** Ghostline is the strongest faction, and any is stronger than none; the ghost quarter is the weakest district. */
  lemma BuildsFight(p: Runner)
    ensures var of := (f: Faction) => CollisionPower(p.(faction := f));
            of(Ghostline) > of(Chrome) == of(Nomad) > of(Unaffiliated)
    ensures var at := (d: District) => CollisionPower(p.(district := d));
            at(Floodline) == at(CorporateArcology) > at(NeonMarket) == at(OldTransit) > at(GhostQuarter)
  {
    hide EquipmentRating;
  }

  /** A runner who wins still wins, against the same draws, with another level or rating point. */
  lemma ImprovedStillWins(t: TS, u: TS, a: Key, b: Key, now: Time)
    requires a in t.s.users && b in t.s.users && a != b && u == t.(s := u.s) && u.s == t.s.(users := u.s.users)
    requires a in u.s.users && b in u.s.users
    ensures u.s.users[b] == t.s.users[b] && Improved(t.s.users[a], u.s.users[a]) && Beats(t, a, b, now, a, b) ==>
              Beats(u, a, b, now, a, b)
    ensures u.s.users[a] == t.s.users[a] && Improved(t.s.users[b], u.s.users[b]) && Beats(t, a, b, now, b, a) ==>
              Beats(u, a, b, now, b, a)
  {
    hide Beats, CollisionPower, Improved;
    StrongerWins(t, a, b, now);
    StrongerWins(u, a, b, now);
    NotBoth(t, a, b, now);
    StrengthGrows(t.s.users[a], u.s.users[a]);
    StrengthGrows(t.s.users[b], u.s.users[b]);
  }

  // ---- What a bout is about ----

  /** The second kind pays double and charges half, the third charges double and pays half, by the others' measure. */
  lemma KindsDiffer(p: Runner, scarred: bool, r: Rules)
    ensures var gain := (kind: nat) => Won(p, kind, scarred, r).progress - p.progress;
            gain(1) == 2 * gain(0) == 2 * gain(3) && 15 <= gain(2) <= gain(0)
    ensures var loss := (kind: nat) => p.progress - Lost(p, kind, r).progress;
            loss(2) == 2 * loss(0) == 2 * loss(3) && 15 <= loss(1) && (loss(0) >= 15 ==> loss(1) <= loss(0))
  {
    hide LevelDuration, AppendUnique, ClampHeat, DamagedDrone;
  }

  /** Only a drone incident wears gear: a drone that is no artifact and not worn out yet loses one tier. */
  lemma IncidentsWearDrones(p: Runner, kind: nat, r: Rules)
    ensures var q, drone := Lost(p, kind, r), GearIn(p.equipment, Drone);
            if kind == 3 && Drone in p.equipment && !drone.unique && drone.rating > 0 then
              && EquipmentRating(q.equipment) == EquipmentRating(p.equipment) - 1
              && Drone in q.equipment && q.equipment[Drone].name.damaged
              && forall slot :: slot != Drone ==> GearIn(q.equipment, slot) == GearIn(p.equipment, slot)
            else q.equipment == p.equipment
  {
    hide LevelDuration, ClampHeat, CollisionLoss;
  }

  /** One win in twenty leaves an adrenal gland; losing leaves no scar. */
  lemma BoutsScar(s: State, w: Key, l: Key)
    requires w in s.users && l in s.users && w != l
    ensures var t := Blows(s, w, l);
            && t.users.Keys == s.users.Keys && t.users[l].scars == s.users[l].scars
            && if Draw(s.rng, 20) == 0 then SyntheticAdrenalGland in t.users[w].scars
               else t.users[w].scars == s.users[w].scars
  {
    hide LevelDuration, ClampHeat, DamagedDrone, CollisionLoss, AppendUnique;
    AppendUniqueIs(s.users[w].scars, [SyntheticAdrenalGland]);
  }

  /** A rivalry takes five bouts, more than with anybody else on both sides; its round is their number. */
  lemma RivalryTakesFive(users: map<Key, Runner>, a: Key, b: Key, k: Key)
    requires a in users && b in users && Round(users, a, b).Some?
    ensures Round(users, a, b).value == Bouts(users[a].rivals, b) >= 5 && Bouts(users[b].rivals, a) >= 5
    ensures Bouts(users[a].rivals, k) <= Bouts(users[a].rivals, b)
    ensures Bouts(users[b].rivals, k) <= Bouts(users[b].rivals, a)
  {
    hide TopRival;
  }

  // ---- Who meets whom ----

  /** Anybody else linked may be met, but only the neighbours if there are any; nobody meets itself. */
  lemma PoolIs(users: map<Key, Runner>, order: seq<Key>, a: Key, k: Key)
    requires a in users && Enumerates(order, users.Keys)
    ensures k in Pool(users, order, a) <==>
              k in users && users[k].connected && k != a
              && (users[k].district == users[a].district
                  || forall j :: j in users && users[j].connected && j != a ==> users[j].district != users[a].district)
  {
    hide Others;
    var near := Others(users, order, a, true);
    if near != [] { assert near[0] in near; }
  }

  /** A top rival in the pool is met on an even draw. */
  lemma RivalsMeet(s: State, pool: seq<Key>, a: Key)
    requires a in s.users && pool != []
    ensures var rival := TopRival(s.users[a].rivals);
            rival.Some? && rival.value in pool && Draw(s.rng, 2) == 0 ==> Opponent(s, pool, a).0 == rival.value
  {
    hide TopRival;
  }

  /** Any draw may meet anybody in the pool. */
  lemma AnybodyMeets(s: State, pool: seq<Key>, a: Key, i: nat) returns (rng: Rng)
    requires a in s.users && i < |pool|
    ensures Opponent(s.(rng := rng), pool, a).0 == pool[i]
  {
    hide TopRival, Draw;
    rng := if TopRival(s.users[a].rivals).Some? then [1, i] else [i];
    DrawIs(rng, 2);
    DrawIs([i], |pool|);
    assert Rest(rng) == if |rng| == 2 then [i] else [];
  }

  /** A source that starts within the range yields its start. */
  lemma DrawIs(rng: Rng, n: nat)
    requires rng != [] && n > 0
    ensures rng[0] < n ==> Draw(rng, n) == rng[0]
  {
  }

  /** After a bout both cool down for the whole interval, so neither is due before that. */
  lemma BothCoolDown(t: TS, a: Key, b: Key, now: Time)
    requires a in t.s.users && b in t.s.users && a != b
    ensures var u := Bout(t, a, b, now).s;
            a in u.users && b in u.users
            && u.users[a].nextCollisionAt == u.users[b].nextCollisionAt == now + t.s.rules.collisionInterval
  {
    hide Blows, Theft, Upset, Round, CountBout, DisplayName, TheftSlot, Stored;
    var s := RecordBout(t.s, a, b);
    var (w, l) := if Upset(s, a, b) then (b, a) else (a, b);
    AftermathKeys(Skip(Skip(s)), w, l);
  }

  lemma AftermathKeys(s: State, w: Key, l: Key)
    requires w in s.users && l in s.users && w != l
    ensures Blows(s, w, l).users.Keys == s.users.Keys && Theft(Blows(s, w, l), w, l).users.Keys == s.users.Keys
    ensures Theft(Blows(s, w, l), w, l).rules == s.rules
  {
    hide Won, Lost, StandardItem, UniqueSlots, TheftSlot, Max, Transfer;
  }

  /** One bout in five costs the loser an artifact, if it has any: exactly those whose draw is below twenty. */
  lemma TheftHappens(s: State, w: Key, l: Key)
    requires w in s.users && l in s.users && w != l
    ensures (exists slot :: Holds(s.users[l], slot)) && Draw(s.rng, 100) < 20 ==>
              exists slot :: Holds(s.users[l], slot) && Theft(s, w, l).users == StealAt(s, w, l, slot).users
    ensures (forall slot :: !Holds(s.users[l], slot)) || Draw(s.rng, 100) >= 20 ==> Theft(s, w, l).users == s.users
  {
    hide StealAt, UniqueSlots;
    var slots := UniqueSlots(s.users[l], |SLOTS|);
    if slots != [] {
      assert slots[0] in slots;
    } else {
      forall slot ensures !Holds(s.users[l], slot) {
        var i := Economy.SlotListed(slot);
      }
    }
    var hit := TheftSlot(s, l);
    if hit.Some? { StealsAlike(s, Skip(Skip(s)), w, l, hit.value); }
  }

  lemma StealsAlike(s: State, t: State, w: Key, l: Key, slot: Slot)
    requires w in s.users && l in s.users && w != l && Holds(s.users[l], slot) && t.users == s.users
    ensures StealAt(t, w, l, slot).users == StealAt(s, w, l, slot).users
  {
    hide StandardItem, Max, Transfer;
  }
}
