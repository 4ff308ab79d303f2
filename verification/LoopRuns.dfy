/**
 * Runs of the loop itself: turns put together one after the other, with the
 * permits they need and the reads they cancel on drop.
 */
module LoopRuns {
  import opened Base
  import opened LogicalRead
  import opened ShardMachine
  import opened ShardInvariant
  import opened ShardTheorems
  import opened Permits
  import opened ThreadTrace

  // ---- counting ----

  /** The run never has more than `n` reads queued or pending: what `n` count permits allow. */
  ghost predicate Within(sqCap: nat, events: seq<Event>, n: nat) {
    forall k :: 0 <= k <= |events| ==> HeldCount(Run(Init(sqCap), events[..k])) <= n
  }

  /** How many reads were cancelled on drop. */
  function Drops(events: seq<Event>): nat
    decreases |events|
  {
    if events == [] then 0
    else Drops(events[..|events| - 1]) + if events[|events| - 1].SendCancel? then 1 else 0
  }

  /** How many reads were sent. */
  function Sends(events: seq<Event>): nat
    decreases |events|
  {
    if events == [] then 0
    else Sends(events[..|events| - 1]) + if events[|events| - 1].SendRead? then 1 else 0
  }

  lemma {:induction false} CountsAppend(a: seq<Event>, b: seq<Event>)
    ensures Drops(a + b) == Drops(a) + Drops(b) && Sends(a + b) == Sends(a) + Sends(b)
    decreases |b|
  {
    if b == [] {
      assert a + b == a;
    } else {
      var n := |b| - 1;
      assert (a + b)[..|a + b| - 1] == a + b[..n];
      CountsAppend(a, b[..n]);
    }
  }

  /** Neither sends a read nor cancels one. */
  predicate NoCalls(events: seq<Event>) {
    forall i :: 0 <= i < |events| ==> !events[i].SendRead? && !events[i].SendCancel?
  }

  lemma {:induction false} NoCallsCount(events: seq<Event>)
    requires NoCalls(events)
    ensures Drops(events) == 0 && Sends(events) == 0
    decreases |events|
  {
    if events != [] {
      NoCallsCount(events[..|events| - 1]);
    }
  }

  /** One call, and then none. */
  lemma OneCall(e: Event, rest: seq<Event>)
    requires NoCalls(rest)
    ensures Drops([e] + rest) == (if e.SendCancel? then 1 else 0) && Sends([e] + rest) == if e.SendRead? then 1 else 0
  {
    CountsAppend([e], rest);
    NoCallsCount(rest);
    assert [e][..0] == [];
  }

  /** Only sending takes permits, one a read. */
  lemma {:induction false} HeldAlong(s: Shard, events: seq<Event>)
    requires Inv(s)
    ensures HeldCount(Run(s, events)) <= HeldCount(s) + Sends(events)
    decreases |events|
  {
    hide Inv, Next, HeldCount;
    if events != [] {
      var init, e := events[..|events| - 1], events[|events| - 1];
      HeldAlong(s, init);
      RunKeepsInv(s, init);
      HeldStep(Run(s, init), e);
    }
  }

  lemma HeldStep(s: Shard, e: Event)
    requires Inv(s)
    ensures HeldCount(Next(s, e)) <= HeldCount(s) + if e.SendRead? then 1 else 0
  {
    hide Inv, HeldCount, HeldBytes, Next;
    if e.SendRead? {
      SendTakes(s, e.id, e.args, e.stream);
      SendIs(s, e.id, e.args, e.stream);
    } else {
      NextReleases(s, e);
    }
  }

  lemma SendIs(s: Shard, id: nat, args: Args, stream: bool)
    ensures Next(s, SendRead(id, args, stream)) == DoSendRead(s, id, args, stream)
  {
    hide DoSendRead;
  }

  lemma {:induction false} FewerSends(events: seq<Event>, j: nat)
    requires j <= |events|
    ensures Sends(events[..j]) <= Sends(events)
    decreases |events|
  {
    if j < |events| {
      var init := events[..|events| - 1];
      assert events[..j] == init[..j];
      FewerSends(init, j);
    } else {
      assert events[..j] == events;
    }
  }

  lemma WithinJoin(sqCap: nat, a: seq<Event>, b: seq<Event>, n: nat)
    requires Within(sqCap, a, n) && HeldCount(Run(Init(sqCap), a)) + Sends(b) <= n
    ensures Within(sqCap, a + b, n)
  {
    hide HeldCount, Run;
    var all := a + b;
    InitInv(sqCap);
    RunKeepsInv(Init(sqCap), a);
    forall k | 0 <= k <= |all|
      ensures HeldCount(Run(Init(sqCap), all[..k])) <= n
    {
      if k <= |a| {
        assert all[..k] == a[..k];
      } else {
        var j := k - |a|;
        assert all[..k] == a + b[..j];
        RunAppend(Init(sqCap), a, b[..j]);
        HeldAlong(Run(Init(sqCap), a), b[..j]);
        FewerSends(b, j);
      }
    }
  }

  // ---- a turn does not care when it happens ----

  function Shift(p: TurnLog, b: nat): TurnLog {
    p.(from := p.from + b, reapFrom := p.reapFrom + b, leaveAt := p.leaveAt + b)
  }

  /** From `from` up to `to`, the second oracle says `b` later what the first says. */
  ghost predicate Agree(o: nat -> Choice, o': nat -> Choice, from: nat, to: nat, b: nat) {
    forall k: nat :: from <= k < to ==> o'(k + b) == o(k)
  }

  lemma {:induction false} RoundsShift(stage: Stage, s: Shard, t: seq<Event>, o: nat -> Choice, o': nat -> Choice,
                                       from: nat, n: nat, start: TurnBudget, left: TurnBudget, b: nat)
    requires Rounds(stage, s, t, o, from, n, start, left) && Agree(o, o', from, from + n, b)
    ensures Rounds(stage, s, t, o', from + b, n, start, left)
    decreases n
  {
    hide Works, Run;
    if n > 0 {
      var c := o(from + n - 1);
      var k: nat, prev: TurnBudget :|
        LastRound(stage, s, t, k, c, prev, left) && Rounds(stage, s, t[..k], o, from, n - 1, start, prev);
      RoundsShift(stage, s, t[..k], o, o', from, n - 1, start, prev, b);
      assert o'(from + n - 1 + b) == c;
      assert from + b + n - 1 == from + n - 1 + b;
    }
  }

  lemma StagedShift(stage: Stage, s: Shard, t: seq<Event>, o: nat -> Choice, o': nat -> Choice,
                    from: nat, to: nat, start: TurnBudget, left: TurnBudget, b: nat)
    requires Staged(stage, s, t, o, from, to, start, left) && Agree(o, o', from, to, b)
    ensures Staged(stage, s, t, o', from + b, to + b, start, left)
  {
    hide Rounds, Idles, Allows, Run;
    var k: nat, n: nat :|
      && k <= |t|
      && Rounds(stage, s, t[..k], o, from, n, start, left)
      && if Allows(stage, left) then Idles(stage, Run(s, t[..k]), o(from + n), t[k..]) && to == from + n + 1
         else k == |t| && to == from + n;
    RoundsShift(stage, s, t[..k], o, o', from, n, start, left, b);
    if Allows(stage, left) {
      assert o'(from + n + b) == o(from + n);
      assert from + b + n == from + n + b;
    }
    assert Rounds(stage, s, t[..k], o', from + b, n, start, left);
  }

  lemma TurnShift(s: Shard, p: TurnLog, o: nat -> Choice, o': nat -> Choice, b: nat)
    requires TurnDid(s, p, o) && Agree(o, o', p.from, p.leaveAt + 1, b)
    ensures TurnDid(s, Shift(p, b), o')
  {
    hide Staged, Submits, Leaves, Run;
    StagedShift(Intaking, s, p.intake, o, o', p.from, p.reapFrom - 1, TurnBudget(0, 0, 0), p.taken, b);
    StagedShift(Reaping, AfterFirst(s, p), p.reap, o, o', p.reapFrom, p.leaveAt - 1, p.taken, p.left, b);
    assert o'(p.reapFrom - 1 + b) == o(p.reapFrom - 1);
    assert o'(p.leaveAt - 1 + b) == o(p.leaveAt - 1);
    assert o'(p.leaveAt + b) == o(p.leaveAt);
    var q := Shift(p, b);
    assert q.reapFrom - 1 == p.reapFrom - 1 + b && q.leaveAt - 1 == p.leaveAt - 1 + b;
  }

  /** Turns only look at the choices up to where the next would begin. */
  lemma {:induction false} TurnsAgree(s: Shard, log: seq<TurnLog>, o: nat -> Choice, o': nat -> Choice)
    requires TurnsDid(s, log, o) && Agree(o, o', 0, NextFrom(log), 0)
    ensures TurnsDid(s, log, o')
    decreases |log|
  {
    hide Run, Flat, Whole;
    if log != [] {
      var init, last := log[..|log| - 1], log[|log| - 1];
      TurnOrder(Run(s, Flat(init)), last, o);
      assert Agree(o, o', 0, NextFrom(init), 0);
      TurnsAgree(s, init, o, o');
      TurnShift(Run(s, Flat(init)), last, o, o', 0);
      assert Shift(last, 0) == last;
    }
  }

  lemma TurnOrder(s: Shard, p: TurnLog, o: nat -> Choice)
    requires TurnDid(s, p, o)
    ensures p.from <= p.reapFrom <= p.leaveAt
  {
    hide Staged, Submits, Leaves, Run;
  }

  // ---- loops with permits and drop-cancels ----

  /** A log of the loop of a ring with `n` slots, within `n` permits, with `k` drop-cancels. */
  ghost predicate IsLoop(log: seq<TurnLog>, o: nat -> Choice, n: nat, k: nat) {
    TurnsDid(Init(n), log, o) && Within(n, Flat(log), n) && Drops(Flat(log)) == k
  }

  /** Where such a log leads. */
  ghost predicate Looped(s: Shard, n: nat, k: nat) {
    exists o: nat -> Choice, log: seq<TurnLog> :: IsLoop(log, o, n, k) && s == Run(Init(n), Flat(log))
  }

  lemma LoopedIsReachable(s: Shard, n: nat, k: nat)
    requires Looped(s, n, k)
    ensures Reachable(s) && Inv(s)
  {
    hide Run, IsLoop, Flat, Inv;
    var o: nat -> Choice, log: seq<TurnLog> :| IsLoop(log, o, n, k) && s == Run(Init(n), Flat(log));
    assert Reachable(s);
    ReachableInv(s);
  }

  lemma NoTurnsYet(n: nat)
    ensures Looped(Init(n), n, 0)
  {
    var o: nat -> Choice := k => Quiet();
    var log: seq<TurnLog> := [];
    assert Flat(log) == [] && Run(Init(n), []) == Init(n);
    assert HeldCount(Init(n)) == 0;
    assert IsLoop(log, o, n, 0);
  }

  /** A choice in which nobody moves and everything goes well. */
  function Quiet(): Choice {
    Choice([], 0, 0, true, false, true, false, EnterOk, false)
  }

  /** The first oracle up to `b`, then the second from its beginning. */
  function Then(o: nat -> Choice, b: nat, o': nat -> Choice): nat -> Choice {
    (k: nat) => if k < b then o(k) else o'(k - b)
  }

  /** One more turn, described as if it were the first. */
  lemma LoopTurn(s: Shard, p: TurnLog, o': nat -> Choice, n: nat, k: nat)
    requires Looped(s, n, k) && TurnDid(s, p, o') && p.from == 0 && HeldCount(s) + Sends(Whole(p)) <= n
    ensures Looped(Run(s, Whole(p)), n, k + Drops(Whole(p)))
  {
    hide Run, Flat, Whole, Within, Drops, Sends, TurnDid, HeldCount;
    var o: nat -> Choice, log: seq<TurnLog> :| IsLoop(log, o, n, k) && s == Run(Init(n), Flat(log));
    var b := NextFrom(log);
    var all := Then(o, b, o');
    TurnsAgree(Init(n), log, o, all);
    TurnShift(s, p, o', all, b);
    var q := Shift(p, b);
    SameWhole(p, b);
    TurnsSnoc(Init(n), log, q, all);
    FlatSnoc(log, q);
    WithinJoin(n, Flat(log), Whole(p), n);
    CountsAppend(Flat(log), Whole(p));
    assert IsLoop(log + [q], all, n, k + Drops(Whole(p)));
  }

  lemma SameWhole(p: TurnLog, b: nat)
    ensures Whole(Shift(p, b)) == Whole(p) && Shift(p, b).from == p.from + b
  {
  }

  lemma FlatSnoc(log: seq<TurnLog>, p: TurnLog)
    ensures Flat(log + [p]) == Flat(log) + Whole(p)
  {
    hide Whole;
    assert (log + [p])[..|log|] == log;
  }

  // ---- simple stages ----

  lemma QuietMoves()
    ensures Moves(Quiet().moves) == []
  {
  }

  lemma {:induction false} OutsideMoves(moves: seq<Event>)
    requires forall i :: 0 <= i < |moves| ==> Outside(moves[i])
    ensures Moves(moves) == moves
    decreases |moves|
  {
    if moves != [] {
      OutsideMoves(moves[..|moves| - 1]);
    }
  }

  /** Intake takes one message and finds the channel empty after it. */
  lemma TakesOne(s: Shard, o: nat -> Choice, moves: seq<Event>, e: Event, left: TurnBudget)
    requires moves == Moves(o(0).moves) && o(1) == Quiet()
    requires var now := Run(s, moves);
             && now.queue != [] && TakesMessage(now, o(0), e) && Next(now, e).queue == []
             && left == TurnBudget(1, 0, Allocates(now)) && left.CanTakeMessage()
    ensures Staged(Intaking, s, moves + [e] + [SeeDisconnect], o, 0, 2, TurnBudget(0, 0, 0), left)
  {
    hide Run, Next, TakesMessage, Allocates, Moves;
    var round := moves + [e];
    NoRounds(Intaking, s, o, 0, TurnBudget(0, 0, 0));
    NoSteps(s);
    assert round[|moves|] == e;
    assert Works(Intaking, Run(s, []), o(0), round, TurnBudget(0, 0, 0), left);
    RoundsSnoc(Intaking, s, [], round, o, 0, 0, TurnBudget(0, 0, 0), TurnBudget(0, 0, 0), left);
    assert [] + round == round;
    RunSnoc(s, moves, e);
    QuietMoves();
    NoSteps(Run(s, round));
    assert [] + [SeeDisconnect] == [SeeDisconnect];
    assert Idles(Intaking, Run(s, round), o(1), [SeeDisconnect]);
    hide Rounds, Staged, Works, Idles;
    StageIdle(Intaking, s, round, [SeeDisconnect], o, 0, 1, TurnBudget(0, 0, 0), left);
  }

  /** The completion queue is empty. */
  lemma ReapsNone(s: Shard, o: nat -> Choice, from: nat, start: TurnBudget)
    requires o(from) == Quiet() && s.cq == [] && start.CanReap()
    ensures Staged(Reaping, s, [], o, from, from + 1, start, start)
  {
    hide Run, Moves;
    NoRounds(Reaping, s, o, from, start);
    NoSteps(s);
    QuietMoves();
    var none: seq<Event> := [];
    assert none + none == none;
    StageIdle(Reaping, s, none, none, o, from, 0, start, start);
  }

  lemma ReapRound(s: Shard, start: TurnBudget)
    requires s.cq != [] && start.completions == 0
    ensures Works(Reaping, s, Quiet(), [Reap(false, true)], start, TurnBudget(start.messages, 1, start.allocationBytes))
  {
    hide Run, Moves;
    NoSteps(s);
    QuietMoves();
    assert [] + [Reap(false, true)] == [Reap(false, true)];
  }

  lemma ReapIdle(s: Shard)
    requires s.cq == []
    ensures Idles(Reaping, s, Quiet(), [])
  {
    hide Run, Moves;
    NoSteps(s);
    QuietMoves();
  }

  /** One completion is there, and no more. */
  lemma ReapsOne(s: Shard, o: nat -> Choice, from: nat, start: TurnBudget)
    requires o(from) == Quiet() && o(from + 1) == Quiet() && s.cq != [] && Next(s, Reap(false, true)).cq == []
    requires start.completions == 0
    ensures Staged(Reaping, s, [Reap(false, true)], o, from, from + 2, start, TurnBudget(start.messages, 1, start.allocationBytes))
  {
    hide Run, Next, Moves, Rounds, Staged, Works, Idles, Quiet;
    var left := TurnBudget(start.messages, 1, start.allocationBytes);
    var none: seq<Event>, round := [], [Reap(false, true)];
    assert none + round == round && round + none == round;
    NoRounds(Reaping, s, o, from, start);
    NoSteps(s);
    ReapRound(s, start);
    OneStep(s, Reap(false, true));
    ReapIdle(Run(s, round));
    RoundsSnoc(Reaping, s, none, round, o, from, 0, start, start, left);
    StageIdle(Reaping, s, round, none, o, from, 1, start, left);
  }

  /** Nothing is queued, and the kernel has nothing to say. */
  lemma SubmitsIdle(s: Shard)
    requires s.sq == [] && s.backlog == []
    ensures Submits(s, Quiet(), [], 0) && Run(s, []) == s
  {
    hide Run;
    NoSteps(s);
    assert Flushable(s) == 0 && Flushes(0) == [];
    SubmitsNothing(s, Quiet());
  }

  lemma Stays(s: Shard, c: Choice)
    requires !c.deadline && !(s.shuttingDown && s.pending == map[] && s.backlog == [])
    ensures Leaves(s, c, []) && Run(s, []) == s
  {
  }

  lemma DisconnectIsNothing(s: Shard)
    requires s.senders
    ensures Next(s, SeeDisconnect) == s
  {
    DisconnectIs(s);
    hide Next;
  }
}
