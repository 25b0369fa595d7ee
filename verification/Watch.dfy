/** Roster checks over a whole run: nobody is dropped before the grace period is over. */
module Watch {
  import opened Grid
  import opened Machine
  import opened Runs
  import opened Roster
  import Frames
  import Restarts

  /** What one operation makes of the watch on a runner. */
  function WatchAfter(s: State, op: Op, k: Key): Option<Time> {
    match op
    case OpReconcile(present, grace, now, order) => MissingSince(s, k, present, grace, now)
    case OpDisconnectAll(now, order) => None
    case OpRestart(now, rng, order) => None
    case _ => Since(s.missing, k)
  }

  lemma StepWatch(states: seq<State>, ops: seq<Op>, i: nat, k: Key)
    requires Run(states, ops) && i < |ops|
    ensures Since(states[i + 1].missing, k) == WatchAfter(states[i], ops[i], k)
  {
    RunKeeps(states, ops, i);
    assert StepAt(states, ops, i);
    var s, op := states[i], ops[i];
    if op.OpReconcile? {
      ReconcileExact(s, op.present, op.grace, op.now, op.order, k);
    } else if op.OpRestart? {
      Restarts.RestartKeeps(s, op.now, op.rng, op.order);
    } else if !op.OpDisconnectAll? {
      Frames.OpFrame(s, op);
    }
  }

  /** From step `m` on, every roster check missed the runner and nothing cleared the watch. */
  ghost predicate MissedThroughout(states: seq<State>, ops: seq<Op>, m: nat, n: nat, k: Key)
    requires |states| == |ops| + 1 && n <= |ops|
  {
    forall j :: m <= j < n ==>
      && !ops[j].OpDisconnectAll? && !ops[j].OpRestart?
      && (ops[j].OpReconcile? ==> Absent(states[j].users, k, ops[j].present))
  }

  /** The watch on a runner began at a roster check that missed it, and every check since missed it. */
  ghost predicate WatchedFrom(states: seq<State>, ops: seq<Op>, m: nat, n: nat, k: Key, since: Time)
    requires |states| == |ops| + 1 && m < n <= |ops|
  {
    ops[m].OpReconcile? && ops[m].now == since && MissedThroughout(states, ops, m, n, k)
  }

  lemma {:induction false} WatchHistory(states: seq<State>, ops: seq<Op>, n: nat, k: Key) returns (m: nat)
    requires Run(states, ops) && n <= |ops| && states[0].missing == map[] && k in states[n].missing
    ensures m < n && WatchedFrom(states, ops, m, n, k, states[n].missing[k])
  {
    m := 0;
    if n > 0 {
      StepWatch(states, ops, n - 1, k);
      var s, op := states[n - 1], ops[n - 1];
      if k in s.missing {
        m := WatchHistory(states, ops, n - 1, k);
        assert MissedThroughout(states, ops, m, n - 1, k);
      } else {
        m := n - 1;
      }
    }
  }

  /**
   A check drops a runner only when some earlier check, at least the grace period ago, missed it, and
   every check from then on, this one included, missed it too. The drop costs nothing but the link.
   */
  lemma DropTakesGrace(states: seq<State>, ops: seq<Op>, n: nat, k: Key) returns (m: nat)
    requires Run(states, ops) && n < |ops| && states[0].missing == map[] && ops[n].OpReconcile?
    requires k in states[n].users && k in states[n + 1].users
    requires states[n].users[k].connected && !states[n + 1].users[k].connected
    ensures m < n && ops[m].OpReconcile? && ops[n].now - ops[m].now >= ops[n].grace
    ensures MissedThroughout(states, ops, m, n + 1, k)
    ensures states[n + 1].users[k] == Missed(states[n].users[k], ops[n].now, states[n].rules)
  {
    assert StepAt(states, ops, n);
    ReconcileExact(states[n], ops[n].present, ops[n].grace, ops[n].now, ops[n].order, k);
    m := WatchHistory(states, ops, n, k);
    assert MissedThroughout(states, ops, m, n, k);
  }

  /** One sighting, or the bot leaving the channel, starts the count anew. */
  lemma SightingResets(states: seq<State>, ops: seq<Op>, n: nat, k: Key)
    requires Run(states, ops) && n < |ops|
    requires ops[n].OpDisconnectAll? || ops[n].OpRestart?
          || (ops[n].OpReconcile? && !Absent(states[n].users, k, ops[n].present))
    ensures k !in states[n + 1].missing
  {
    StepWatch(states, ops, n, k);
  }
}
