/** What a change of nick, alias or stance makes of the runner, and that everybody else stays as they were. */
module Nicks {
  import opened Grid
  import opened Progression
  import opened StoreRows
  import opened Machine
  import opened Invariants
  import opened Arrivals
  import opened Paths
  import Cooling
  import Operations

  /** The runner at `k`, in memory and in its row, is linked under the nick. */
  ghost predicate Answers(t: State, k: Key, nick: Name) {
    && k in t.users && t.users[k].connected && t.users[k].nick == nick
    && k in t.repo.players && t.repo.players[k] == Stored(t.users[k])
  }

  /** The runner keeps everything else it is known by, pays the penalty, and draws Heat. */
  predicate Reidentified(p: Runner, q: Runner, penalty: int) {
    && q.account == p.account && q.guest == p.guest && q.alias == p.alias && q.level == p.level
    && q.equipment == p.equipment && q.progress == p.progress - penalty && Cooling.Hotter(p, q)
  }

  lemma RenamedAnswers(s: State, k: Key, newNick: Name, now: Time)
    requires k in s.users && s.users[k].connected
    ensures var t, j := RenameAt(s, k, newNick, now), if Moves(s, k, newNick) then GuestKey(newNick) else k;
            var a := Advance(s.users[k], now, s.rules);
            && Answers(t, j, newNick)
            && Reidentified(a, t.users[j], PenaltySeconds(a.level, NickChange, 0, s.rules))
  {
    hide Advance, LevelMsgs, Queue, Stored, PenaltySeconds, MarkFailed, Rekey, Rekeys;
    LinkStays(s.users[k], now, s.rules);
  }

  lemma LinkStays(p: Runner, now: Time, r: Tuning)
    ensures Advance(p, now, r).connected == p.connected
  {
  }

  /**
   A linked runner who changes nick answers to the new one, in memory and in its row, under whatever key it goes on.
   Nobody else's nick changes.
   */
  lemma RenameTakes(s: State, nick: Name, newNick: Name, now: Time, order: seq<Key>)
    requires Inv(s) && Find(s.users, None, nick, order).Some?
    requires s.users[Find(s.users, None, nick, order).value].connected
    ensures var k, t := Find(s.users, None, nick, order).value, Rename(s, nick, newNick, now, order);
            && Answers(t, Moved(NickMove(s, nick, newNick, order), k), newNick)
            && forall i :: i in s.users && i != k ==> i in t.users && t.users[i].nick == s.users[i].nick
  {
    hide RenameAt, Find, Answers, Inv;
    var k := Find(s.users, None, nick, order).value;
    RenamedAnswers(s, k, newNick, now);
    forall i | i in s.users && i != k ensures i in RenameAt(s, k, newNick, now).users
      && RenameAt(s, k, newNick, now).users[i].nick == s.users[i].nick
    {
      Operations.RenameOverwritesNobody(s, nick, newNick, now, order, i);
    }
  }

  /** Unless somebody else is linked under the new nick, it finds the renamed runner in every walk. */
  lemma RenamedIsFound(s: State, nick: Name, newNick: Name, now: Time, order: seq<Key>, later: seq<Key>)
    requires Inv(s) && Find(s.users, None, nick, order).Some?
    requires s.users[Find(s.users, None, nick, order).value].connected
    requires Enumerates(later, Rename(s, nick, newNick, now, order).users.Keys)
    requires forall i :: i in s.users && i != Find(s.users, None, nick, order).value ==> !LinkedAs(s.users[i], newNick)
    ensures var k, t := Find(s.users, None, nick, order).value, Rename(s, nick, newNick, now, order);
            Find(t.users, None, newNick, later) == Some(Moved(NickMove(s, nick, newNick, order), k))
  {
    hide Rename, Find, Inv, NickMove;
    var k, t := Find(s.users, None, nick, order).value, Rename(s, nick, newNick, now, order);
    var j := Moved(NickMove(s, nick, newNick, order), k);
    RenameTakes(s, nick, newNick, now, order);
    forall i | i in t.users && i != j ensures !LinkedAs(t.users[i], newNick) {
      RenameAddsNobody(s, nick, newNick, now, order, i);
    }
    OnlyOneFound(t.users, j, newNick, later);
  }

  /** Whoever sits anywhere but at the renamed runner's key sat there before, as it is now. */
  lemma RenameAddsNobody(s: State, nick: Name, newNick: Name, now: Time, order: seq<Key>, i: Key)
    requires Find(s.users, None, nick, order).Some? && s.users[Find(s.users, None, nick, order).value].connected
    requires i in Rename(s, nick, newNick, now, order).users
    requires i != Moved(NickMove(s, nick, newNick, order), Find(s.users, None, nick, order).value)
    ensures i in s.users && i != Find(s.users, None, nick, order).value
    ensures Rename(s, nick, newNick, now, order).users[i] == s.users[i]
  {
    hide Find, Advance, LevelMsgs, Queue, Stored, Renamed, Rekey, Rekeys;
  }

  // ---- Commands about oneself ----

  /** The runner at `k` was caught up and saved with the given change; nobody else was touched. */
  ghost predicate Changed(s: State, t: State, k: Key, q: Runner) {
    && k in t.users && t.users == s.users[k := q] && k in t.repo.players && t.repo.players[k] == Stored(q)
  }

  /** The name is the runner's alias or nick in some letter case. */
  predicate AnswersTo(p: Runner, name: Name) {
    EqualFold(p.nick, name) || (p.alias.Some? && EqualFold(p.alias.value, name))
  }

  /** Nobody but the runner at `k` answers to the name. */
  predicate Free(users: map<Key, Runner>, k: Key, name: Name) {
    forall j :: j in users && j != k ==> !AnswersTo(users[j], name)
  }

  /**
   An alias is taken exactly if it is valid or being cleared, the runner is known, and nobody else has it as alias or
   nick in any letter case. Refusing changes nothing.
   */
  lemma AliasTakes(s: State, identity: Option<Key>, nick: Name, alias: Option<Name>, now: Time, order: seq<Key>)
    ensures var (t, ok) := SetAlias(s, identity, nick, alias, now, order);
            var hit := Find(s.users, identity, nick, order);
            && (ok <==> hit.Some? && (alias.Some? ==> ValidAlias(alias.value) && Free(s.users, hit.value, alias.value)))
            && if !ok then t == s else
                 var a := Advance(s.users[hit.value], now, s.rules);
                 Changed(s, t, hit.value, a.(alias := alias, lastSeenAt := now))
  {
    hide Advance, LevelMsgs, Queue, Stored, Find, ValidAlias;
  }

  /** What a runner is announced as is its alias, and its nick once that is cleared. */
  lemma AliasShows(s: State, identity: Option<Key>, nick: Name, alias: Option<Name>, now: Time, order: seq<Key>)
    ensures var (t, ok) := SetAlias(s, identity, nick, alias, now, order);
            var hit := Find(s.users, identity, nick, order);
            ok ==> hit.Some? && hit.value in t.users
                   && DisplayName(t.users[hit.value])
                      == (if alias.Some? then alias.value else s.users[hit.value].nick)
  {
    hide SetAlias, Find, Advance;
    AliasTakes(s, identity, nick, alias, now, order);
    var hit := Find(s.users, identity, nick, order);
    if hit.Some? { AdvanceFrame(s.users[hit.value], now, s.rules); }
  }

  /** A stance is taken by whoever is known. */
  lemma StanceTakes(s: State, identity: Option<Key>, nick: Name, stance: Stance, now: Time, order: seq<Key>)
    ensures var (t, ok) := SetStance(s, identity, nick, stance, now, order);
            var hit := Find(s.users, identity, nick, order);
            && (ok <==> hit.Some?)
            && if !ok then t == s else
                 var a := Advance(s.users[hit.value], now, s.rules);
                 Changed(s, t, hit.value, a.(stance := stance, lastSeenAt := now))
  {
    hide Advance, LevelMsgs, Queue, Stored, Find;
  }
}
