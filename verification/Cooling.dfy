/** Heat and the clocks of a runner: linked time cools it, offline time does nothing, and all else only heats. */
module Cooling {
  import opened Grid
  import opened Progression
  import opened Machine

  /** Whole units that fit between two instants, and what is left of the next. */
  lemma UnitsFit(last: Time, now: Time, unit: int)
    requires unit > 0 && last <= now
    ensures var n := Elapsed(last, now, unit);
            && last + n * unit <= now < last + n * unit + unit
            && (last + n * unit - last) / unit == n
  {
    DivisionBounds(now - last, unit);
    QuotientUnique(Elapsed(last, now, unit) * unit, Elapsed(last, now, unit), unit);
  }

  /**
   Linked time cools: one point of Heat for every whole interval the Heat clock moves on, down to none, and the
   clock stays less than an interval behind.
   */
  lemma AdvanceCools(p: Runner, now: Time, r: Tuning)
    requires p.connected && 0 < p.lastHeatAt <= now
    ensures var q := Advance(p, now, r);
            && q.heat <= p.heat && q.lastHeatAt <= now < q.lastHeatAt + r.heatDecayInterval
            && q.heat == Max(0, p.heat - (q.lastHeatAt - p.lastHeatAt) / r.heatDecayInterval)
  {
    hide LevelLoop, Elapsed;
    UnitsFit(p.lastHeatAt, now, r.heatDecayInterval);
  }

  /** The Heat clock moves on by whole intervals. */
  lemma AdvanceCoolsWhole(p: Runner, now: Time, r: Tuning)
    requires p.connected && 0 < p.lastHeatAt && now >= p.lastHeatAt + MAX_HEAT * r.heatDecayInterval
    ensures (Advance(p, now, r).lastHeatAt - p.lastHeatAt) / r.heatDecayInterval >= MAX_HEAT
  {
    hide LevelLoop, Elapsed;
    UnitsFit(p.lastHeatAt, now, r.heatDecayInterval);
    var n := Elapsed(p.lastHeatAt, now, r.heatDecayInterval);
    if n < MAX_HEAT {
      MulDistributes(MAX_HEAT - n - 1, n + 1, r.heatDecayInterval);
    }
  }

  /** A hundred intervals on the link leave no Heat. */
  lemma HeatFades(p: Runner, now: Time, r: Tuning)
    requires p.connected && 0 < p.lastHeatAt && now >= p.lastHeatAt + MAX_HEAT * r.heatDecayInterval
    ensures Advance(p, now, r).heat == 0
  {
    AdvanceCools(p, now, r);
    AdvanceCoolsWhole(p, now, r);
    hide Advance;
  }

  /** Being linked is being seen; being offline changes nothing but where the clocks start. */
  lemma LinkedIsSeen(p: Runner, now: Time, r: Tuning)
    ensures var q := Advance(p, now, r);
            && q.lastSeenAt == (if p.connected then Max(p.lastSeenAt, now) else p.lastSeenAt)
            && (!p.connected ==> q.heat == p.heat && MeterOf(q) == MeterOf(p))
  {
    hide LevelLoop, Elapsed;
  }

  /** More Heat than before, or as much as there can be. */
  predicate Hotter(p: Runner, q: Runner) { q.heat > p.heat || q.heat == MAX_HEAT }

  /**
   Identity changes, disconnects, lost encounters and corporate attention heat a runner, a kick at least as much as
   leaving; a netsplit does not.
   */
  lemma TroubleHeats(p: Runner, nick: Name, kind: Kind, scarred: bool, now: Time, r: Rules)
    ensures Hotter(p, Renamed(p, nick, r)) && Hotter(p, IceLost(p, scarred, r))
    ensures kind == Part || kind == Quit || kind == Kick ==> Hotter(p, Unlinked(p, kind, now, r))
    ensures Unlinked(p, Netsplit, now, r).heat == p.heat
    ensures Unlinked(p, Kick, now, r).heat >= Unlinked(p, Part, now, r).heat
    ensures Hotter(p, EventHit(p, CorporateSweep, scarred, now))
  {
    hide LevelDuration, PenaltySeconds, AppendUnique, ProgressChange;
  }

  /** Nothing else cools: settling, raids, encounters, bouts, shards and the other city events never do. */
  lemma OnlyTimeCools(p: Runner, won: bool, scarred: bool, kind: nat, event: CityEvent, now: Time, r: Rules)
    ensures Settled(p, won, r).heat >= p.heat && Raided(p, won, r).heat >= p.heat && Shard(p, r).heat >= p.heat
    ensures IceWon(p, scarred, r).heat >= p.heat && EventHit(p, event, scarred, now).heat >= p.heat
    ensures Won(p, kind, scarred, r).heat >= p.heat && Lost(p, kind, r).heat >= p.heat
  {
    hide LevelDuration, AppendUnique, ProgressChange, Overclocked, DamagedDrone, CollisionLoss;
  }

  /** Contracts, raids and bouts heat whoever took part, and losing them heats at least as much as winning. */
  lemma LosingHeatsMore(p: Runner, scarred: bool, kind: nat, r: Rules)
    ensures Hotter(p, Settled(p, true, r)) && Hotter(p, Raided(p, true, r)) && Hotter(p, Won(p, kind, scarred, r))
    ensures Settled(p, false, r).heat >= Settled(p, true, r).heat && Raided(p, false, r).heat >= Raided(p, true, r).heat
    ensures Lost(p, kind, r).heat >= Won(p, kind, scarred, r).heat
    ensures IceLost(p, scarred, r).heat >= IceWon(p, scarred, r).heat
    ensures p.heat <= 90 ==> Settled(p, false, r).heat > Settled(p, true, r).heat
                             && Raided(p, false, r).heat > Raided(p, true, r).heat
                             && IceLost(p, scarred, r).heat > IceWon(p, scarred, r).heat
  {
    hide LevelDuration, AppendUnique, DamagedDrone, CollisionLoss, StanceReward;
  }
}
