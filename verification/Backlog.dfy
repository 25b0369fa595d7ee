/** The queue of waiting announcements: what is handed over of it, what waits, and what is lost. */
module Backlog {
  import opened Grid
  import opened Machine

  /** A use of the queue: a runner's news comes in, a tick takes what waits, or a restart drops it. */
  datatype Use = Put(who: Key, messages: seq<Msg>) | Take | Drop

  function Waiting(start: seq<Msg>, uses: seq<Use>): seq<Msg> {
    if uses == [] then start
    else
      var last := uses[|uses| - 1];
      if last.Put? then Queue(Waiting(start, uses[..|uses| - 1]), last.messages) else []
  }

  /** Everything taken, in the order it was handed over. */
  function Delivered(start: seq<Msg>, uses: seq<Use>): seq<Msg> {
    if uses == [] then []
    else
      var rest := uses[..|uses| - 1];
      Delivered(start, rest) + if uses[|uses| - 1].Take? then Waiting(start, rest) else []
  }

  function Said(use: Use): seq<Msg> { if use.Put? then use.messages else [] }

  /** Everything put into the queue. */
  function Queued(uses: seq<Use>): seq<Msg> {
    if uses == [] then [] else Queued(uses[..|uses| - 1]) + Said(uses[|uses| - 1])
  }

  /** How many announcements an overflow pushed out or a restart dropped. */
  function Forgone(start: seq<Msg>, uses: seq<Use>): nat {
    if uses == [] then 0
    else
      var rest, last := uses[..|uses| - 1], uses[|uses| - 1];
      var waiting := |Waiting(start, rest)|;
      Forgone(start, rest)
      + if last.Drop? then waiting
        else if last.Put? then Max(0, waiting + |last.messages| - MAX_PENDING)
        else 0
  }

  /** `sub` picks positions of `whole` in increasing order. */
  ghost predicate Picks(whole: seq<Msg>, sub: seq<Msg>, at: seq<nat>) {
    && |at| == |sub|
    && (forall i :: 0 <= i < |at| ==> at[i] < |whole| && whole[at[i]] == sub[i])
    && (forall i, j :: 0 <= i < j < |at| ==> at[i] < at[j])
  }

  lemma PicksLast(whole: seq<Msg>, done: seq<Msg>, waiting: seq<Msg>, at: seq<nat>, n: nat) returns (kept: seq<nat>)
    requires Picks(whole, done + waiting, at)
    ensures Picks(whole, done + LastOf(waiting, n), kept)
  {
    if |waiting| > n {
      kept := at[..|done|] + at[|done| + |waiting| - n..];
      assert forall i :: 0 <= i < |done| ==> (done + waiting)[i] == done[i];
    } else {
      kept := at;
    }
  }

  lemma PicksMore(whole: seq<Msg>, sub: seq<Msg>, at: seq<nat>, more: seq<Msg>) returns (longer: seq<nat>)
    requires Picks(whole, sub, at)
    ensures Picks(whole + more, sub + more, longer)
  {
    longer := at + seq(|more|, i requires 0 <= i < |more| => |whole| + i);
  }

  /** What is handed over, and after it what waits, is an ordered selection of what waited first and was queued. */
  lemma {:induction false} HandedInOrder(start: seq<Msg>, uses: seq<Use>) returns (at: seq<nat>)
    ensures Picks(start + Queued(uses), Delivered(start, uses) + Waiting(start, uses), at)
  {
    if uses == [] {
      at := seq(|start|, i => i);
    } else {
      var rest, last := uses[..|uses| - 1], uses[|uses| - 1];
      var done, waiting := Delivered(start, rest), Waiting(start, rest);
      at := HandedInOrder(start, rest);
      assert start + Queued(uses) == start + Queued(rest) + Said(last);
      match last
      case Put(_, messages) =>
        at := PicksMore(start + Queued(rest), done + waiting, at, messages);
        assert done + waiting + messages == done + (waiting + messages);
        at := PicksLast(start + Queued(uses), done, waiting + messages, at, MAX_PENDING);
      case Take =>
        assert Delivered(start, uses) + Waiting(start, uses) == done + waiting;
        assert start + Queued(rest) + [] == start + Queued(rest);
      case Drop =>
        at := PicksLast(start + Queued(rest), done, waiting, at, 0);
        assert start + Queued(rest) + [] == start + Queued(rest);
        assert done + LastOf(waiting, 0) == Delivered(start, uses) + Waiting(start, uses);
    }
  }

  lemma {:induction false} CountsAddUp(start: seq<Msg>, uses: seq<Use>)
    ensures |start| + |Queued(uses)| == |Delivered(start, uses)| + |Waiting(start, uses)| + Forgone(start, uses)
  {
    if uses != [] {
      CountsAddUp(start, uses[..|uses| - 1]);
    }
  }

  /** Everything is handed over exactly once, or still waits, precisely if no overflow or restart lost any. */
  lemma {:induction false} NothingLost(start: seq<Msg>, uses: seq<Use>)
    ensures start + Queued(uses) == Delivered(start, uses) + Waiting(start, uses) <==> Forgone(start, uses) == 0
  {
    CountsAddUp(start, uses);
    if uses != [] && Forgone(start, uses) == 0 {
      var rest, last := uses[..|uses| - 1], uses[|uses| - 1];
      var done, waiting := Delivered(start, rest), Waiting(start, rest);
      NothingLost(start, rest);
      assert start + Queued(uses) == done + waiting + Said(last);
      if last.Put? {
        assert Waiting(start, uses) == waiting + last.messages;
        assert Delivered(start, uses) == done;
      }
    }
  }

  lemma {:induction false} UsedInTurn(start: seq<Msg>, a: seq<Use>, b: seq<Use>)
    ensures Waiting(start, a + b) == Waiting(Waiting(start, a), b)
    ensures Delivered(start, a + b) == Delivered(start, a) + Delivered(Waiting(start, a), b)
  {
    hide Queue;
    if b == [] {
      assert a + b == a;
    } else {
      var rest, last := b[..|b| - 1], b[|b| - 1];
      assert (a + b)[..|a + b| - 1] == a + rest && (a + b)[|a + b| - 1] == last;
      UsedInTurn(start, a, rest);
    }
  }

  // ---- Levels announced ----

  function LevelsIn(messages: seq<Msg>): int {
    if messages == [] then 0
    else
      var m := messages[|messages| - 1];
      LevelsIn(messages[..|messages| - 1]) + if m.LevelUp? then m.gained else 0
  }

  /** The levels a runner's announcements amount to. */
  function Gained(uses: seq<Use>, k: Key): int {
    if uses == [] then 0
    else
      var last := uses[|uses| - 1];
      Gained(uses[..|uses| - 1], k) + if last.Put? && last.who == k then LevelsIn(last.messages) else 0
  }

  predicate AllUps(messages: seq<Msg>) { forall m <- messages :: m.LevelUp? }

  /** The level announcements among the messages. */
  function Ups(messages: seq<Msg>): seq<Msg> {
    if messages == [] then []
    else
      var m := messages[|messages| - 1];
      Ups(messages[..|messages| - 1]) + if m.LevelUp? then [m] else []
  }

  lemma {:induction false} UpsOnly(messages: seq<Msg>)
    requires AllUps(messages)
    ensures Ups(messages) == messages
  {
    if messages != [] {
      UpsOnly(messages[..|messages| - 1]);
    }
  }

  lemma {:induction false} UpsAppend(a: seq<Msg>, b: seq<Msg>)
    ensures Ups(a + b) == Ups(a) + Ups(b)
  {
    if b == [] {
      assert a + b == a;
    } else {
      assert (a + b)[..|a + b| - 1] == a + b[..|b| - 1];
      UpsAppend(a, b[..|b| - 1]);
    }
  }

  lemma {:induction false} GainedInTurn(a: seq<Use>, b: seq<Use>, k: Key)
    ensures Gained(a + b, k) == Gained(a, k) + Gained(b, k)
  {
    if b == [] {
      assert a + b == a;
    } else {
      assert (a + b)[..|a + b| - 1] == a + b[..|b| - 1];
      GainedInTurn(a, b[..|b| - 1], k);
    }
  }
}
