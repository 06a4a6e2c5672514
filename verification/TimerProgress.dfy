/** What the timer protocol can always get done: cancellations return, scheduled periodic
    tasks run, and each run posts the next. */
module TimerProgress {
  import opened Options
  import opened MachineInts
  import opened TimerGrid
  import opened TimerProtocol
  import opened TimerSafety

  lemma {:induction false} RunFromWired(s: System, actions: seq<Action>)
    requires Wired(s)
    ensures Wired(RunFrom(s, actions))
  {
    if actions != [] {
      var n := |actions| - 1;
      RunFromWired(s, actions[..n]);
      NextWired(RunFrom(s, actions[..n]), actions[n]);
    }
  }

  lemma {:induction false} RunFromThen(s: System, a: seq<Action>, b: seq<Action>)
    ensures RunFrom(s, a + b) == RunFrom(RunFrom(s, a), b)
  {
    if b == [] {
      assert a + b == a;
    } else {
      var n := |b| - 1;
      RunFromThen(s, a, b[..n]);
      assert (a + b)[..|a| + n] == a + b[..n];
    }
  }

  lemma {:induction false} RunFour(s: System, a: Action, b: Action, c: Action, d: Action)
    ensures RunFrom(s, [a, b, c, d]) == Next(Next(Next(Next(s, a), b), c), d)
  {
    RunThree(s, a, b, c);
    assert [a, b, c, d][..3] == [a, b, c];
  }

  /** The loop finishes whatever closure it is running. */
  function Freed(s: System, l: LoopId): System
  {
    s.(busy := s.busy - {l}, other := s.other - {l},
       timer := if l in s.busy then TaskEnded(s.timer) else s.timer)
  }

  lemma {:induction false} LoopFinishes(s: System, l: LoopId)
    ensures Next(Next(s, TaskEnd(l)), OtherEnd(l)) == Freed(s, l)
  {
    var s' := Next(s, TaskEnd(l));
    assert s'.busy == s.busy - {l};
    assert Next(s', OtherEnd(l)).other == s.other - {l};
  }

  // ----- Cancellations return

  function CancelPost(s: System, l: LoopId): Posted
  {
    Posted(s.serial, l, CancelClosure(Ticket(s.tickets, s.timer.gen)), s.now)
  }

  /** Is there nothing to wait for? */
  predicate CancelsAtOnce(s: System, caller: Option<LoopId>)
  {
    s.timer.thread.None? || caller == s.timer.thread || s.timer.thread.value !in s.loops
  }

  /** What the timer's loop does to serve a cancellation from elsewhere. */
  function Serving(s: System, caller: Option<LoopId>): seq<Action>
  {
    if CancelsAtOnce(s, caller) then [] else
      var l := s.timer.thread.value;
      [TaskEnd(l), OtherEnd(l), LoopRun(CancelPost(s, l))]
  }

  lemma {:induction false} CancelIsServed(s: System, caller: Option<LoopId>, s1: System)
    requires Wired(s)
    requires var c := CancelHelper(s, caller); s1 == c || (s1.lock.Some? && s1 == c.(lock := s1.lock))
    ensures var s2 := RunFrom(s1, Serving(s, caller));
            && Ticket(s.tickets, s.timer.gen) in s2.done
            && s2.lock == s1.lock && s2.loops == s.loops && s2.now == s.now && s2.timer.kind == s.timer.kind
  {
    if !CancelsAtOnce(s, caller) {
      var l := s.timer.thread.value;
      var p := CancelPost(s, l);
      RunThree(s1, TaskEnd(l), OtherEnd(l), LoopRun(p));
      LoopFinishes(s1, l);
      assert p in Freed(s1, l).posted && Enabled(Freed(s1, l), LoopRun(p));
    }
  }

  /** From every state of a run, a cancellation can return without another Schedule: at once,
      or as soon as the timer's loop has finished what it is running. */
  lemma {:induction false} CancelCanReturn(kind: Kind, actions: seq<Action>, caller: Option<LoopId>)
    requires Enabled(Run(kind, actions), CancelCall(caller))
    ensures var s := Run(kind, actions);
            var s' := RunFrom(Next(s, CancelCall(caller)), Serving(s, caller));
            && SchedulesNothing(Serving(s, caller))
            && Enabled(s', CancelReturn(Ticket(s.tickets, s.timer.gen)))
            && Next(s, CancelCall(caller)).log == s.log + [CancelCalled(Ticket(s.tickets, s.timer.gen))]
  {
    RunWired(kind, actions);
    var s := Run(kind, actions);
    CancelIsServed(s, caller, Next(s, CancelCall(caller)));
  }

  /** The cancellation is done, or its closure is due on a running loop. */
  ghost predicate Tended(s: System, k: Ticket)
  {
    k in s.done || exists p | p in s.posted :: Carries(s, p, k)
  }

  predicate Carries(s: System, p: Posted, k: Ticket)
  {
    p.closure == CancelClosure(k) && p.loop in s.loops && p.due <= s.now
  }

  lemma {:induction false} TendedKept(s: System, a: Action, k: Ticket)
    requires Tended(s, k)
    ensures Tended(Next(s, a), k)
  {
    var s' := Next(s, a);
    if k !in s.done && Enabled(s, a) {
      var p :| p in s.posted && Carries(s, p, k);
      if a == LoopRun(p) || (a.LoopStop? && a.loop == p.loop) {
        assert k in s'.done;
      } else {
        assert p in s'.posted && Carries(s', p, k);
      }
    }
  }

  lemma {:induction false} CallTended(s: System, a: Action)
    ensures s.log <= Next(s, a).log
    ensures forall i | |s.log| <= i < |Next(s, a).log| && Next(s, a).log[i].CancelCalled? ::
              Tended(Next(s, a), Next(s, a).log[i].ticket)
  {
    var s' := Next(s, a);
    if Enabled(s, a) && (a.CancelCall? || a.ScheduleCall?) && s'.log != s.log {
      var k := Ticket(s.tickets, s.timer.gen);
      assert s'.log == s.log + [CancelCalled(k)];
      if k !in s'.done {
        var p := CancelPost(s, s.timer.thread.value);
        assert p in s'.posted && Carries(s', p, k);
      }
    }
  }

  lemma {:induction false} CancelsTended(kind: Kind, actions: seq<Action>, i: nat)
    requires i < |Run(kind, actions).log| && Run(kind, actions).log[i].CancelCalled?
    ensures Tended(Run(kind, actions), Run(kind, actions).log[i].ticket)
  {
    var n := |actions| - 1;
    var s := Run(kind, actions[..n]);
    CallTended(s, actions[n]);
    if i < |s.log| {
      CancelsTended(kind, actions[..n], i);
      TendedKept(s, actions[n], s.log[i].ticket);
    }
  }

  /** No cancellation is lost: whatever has happened since it was called, with loops stopped and
      destroyed and tasks replaced, it can still return without another Schedule. */
  lemma {:induction false} NoCancelIsLost(kind: Kind, actions: seq<Action>, i: nat) returns (more: seq<Action>)
    requires i < |Run(kind, actions).log| && Run(kind, actions).log[i].CancelCalled?
    ensures SchedulesNothing(more)
    ensures Enabled(RunFrom(Run(kind, actions), more), CancelReturn(Run(kind, actions).log[i].ticket))
  {
    var s := Run(kind, actions);
    var k := s.log[i].ticket;
    CancelsTended(kind, actions, i);
    more := [];
    if k !in s.done {
      var p :| p in s.posted && Carries(s, p, k);
      more := [TaskEnd(p.loop), OtherEnd(p.loop), LoopRun(p)];
      RunThree(s, TaskEnd(p.loop), OtherEnd(p.loop), LoopRun(p));
      LoopFinishes(s, p.loop);
    }
  }

  // ----- Every periodic run posts the next

  /** A periodic run leaves exactly one live wrapper, on the same loop, due at the time just
      logged as the next. */
  lemma {:induction false} PeriodicRunPostsNext(s: System, p: Posted) returns (q: Posted)
    requires Wired(s) && s.timer.kind.Repeating? && Enabled(s, LoopRun(p)) && TaskRuns(s, p)
    ensures var s' := Next(s, LoopRun(p));
            && s'.log == s.log + [s'.log[|s.log|]]
            && var e := s'.log[|s.log|];
            && e == Started(p.closure.gen, s.runs + 1, p.due, s.now, Some(q.due))
            && q in s'.posted && Live(s'.timer, q) && q.loop == p.loop && TaskRuns(s', q)
            && (forall x | x in s'.posted && Live(s'.timer, x) :: x == q)
            && s.now <= q.due <= s.now + s.timer.period && s'.timer.period == s.timer.period
            && s'.runs == s.runs + 1 && s'.loops == s.loops && s'.now == s.now && s'.timer.kind.Repeating?
            && p.loop in s'.busy && s'.lock == s.lock
  {
    var s' := Next(s, LoopRun(p));
    RepostedDue(s, p);
    NextDelayOnGrid(s.timer.expected, s.timer.period, s.now);
    q := Posted(s.serial, p.loop, p.closure, s.now + NextDelay(s.timer.expected, s.timer.period, s.now));
    NextWired(s, LoopRun(p));
    assert q in s'.posted;
    assert PostedOk(s', q);
  }

  /** The task returns, the clock reaches the due time, and the loop takes the wrapper. */
  function NextRun(s: System, q: Posted): seq<Action>
  {
    [TaskEnd(q.loop), OtherEnd(q.loop), Tick(if s.now <= q.due then q.due else s.now)]
  }

  lemma {:induction false} ReadyAgain(s: System, q: Posted)
    requires Wired(s) && s.timer.kind.Repeating? && q in s.posted && TaskRuns(s, q) && q.due < TWO_63
    ensures var s' := RunFrom(s, NextRun(s, q));
            && Wired(s') && s'.timer == s.timer && s'.runs == s.runs && s'.log == s.log && s'.posted == s.posted
            && Enabled(s', LoopRun(q)) && TaskRuns(s', q)
            && s'.now == (if s.now <= q.due then q.due else s.now)
  {
    var t := if s.now <= q.due then q.due else s.now;
    RunThree(s, TaskEnd(q.loop), OtherEnd(q.loop), Tick(t));
    LoopFinishes(s, q.loop);
    RunFromWired(s, NextRun(s, q));
    assert PostedOk(s, q);
  }

  /** While the clock can reach it, the next run can happen without another Schedule, and it
      is the next in number and due at the time logged. */
  lemma {:induction false} PeriodicRunsAgain(s: System, p: Posted) returns (q: Posted)
    requires Wired(s) && s.timer.kind.Repeating? && Enabled(s, LoopRun(p)) && TaskRuns(s, p)
    requires s.now + s.timer.period < TWO_63
    ensures var s' := Next(s, LoopRun(p));
            var s'' := RunFrom(s', NextRun(s', q));
            && SchedulesNothing(NextRun(s', q))
            && s''.log == s.log + [Started(p.closure.gen, s.runs + 1, p.due, s.now, Some(q.due))]
            && Wired(s'') && s''.timer.kind.Repeating? && s''.timer.period == s.timer.period
            && s''.now == q.due <= s.now + s.timer.period && s''.runs == s.runs + 1
            && q.closure == p.closure && Enabled(s'', LoopRun(q)) && TaskRuns(s'', q)
  {
    q := PeriodicRunPostsNext(s, p);
    NextWired(s, LoopRun(p));
    ReadyAgain(Next(s, LoopRun(p)), q);
  }

  /** The events after `log` are runs of task `id`, numbered on from `nth`. */
  ghost predicate RunsOn(log: seq<Event>, log': seq<Event>, id: nat, nth: nat)
  {
    && log <= log'
    && forall j | |log| <= j < |log'| :: log'[j].Started? && log'[j].id == id && log'[j].nth == nth + j - |log|
  }

  lemma {:induction false} RunsOnFrom(log: seq<Event>, e: Event, log': seq<Event>, id: nat, nth: nat)
    requires e.Started? && e.id == id && e.nth == nth && RunsOn(log + [e], log', id, nth + 1)
    ensures RunsOn(log, log', id, nth)
  {
    assert log'[|log|] == e;
  }

  lemma {:induction false} RunFromOne(s: System, a: Action)
    ensures RunFrom(s, [a]) == Next(s, a)
  {
    assert [a][..0] == [];
  }

  /** One run, the way to the next, and the rest. */
  lemma {:induction false} RunsChain(s: System, p: Posted, next: seq<Action>, rest: seq<Action>)
    requires SchedulesNothing(next) && SchedulesNothing(rest)
    ensures SchedulesNothing([LoopRun(p)] + (next + rest))
    ensures RunFrom(s, [LoopRun(p)] + (next + rest)) == RunFrom(RunFrom(Next(s, LoopRun(p)), next), rest)
  {
    RunFromOne(s, LoopRun(p));
    RunFromThen(s, [LoopRun(p)], next + rest);
    RunFromThen(Next(s, LoopRun(p)), next, rest);
  }

  /** Time for n more periods is time for one and then for n - 1. */
  lemma {:induction false} TimeLeft(now: int, now': int, n: nat, period: int)
    requires n > 0 && period > 0 && now + n * period < TWO_63 && now' <= now + period
    ensures now + period < TWO_63 && now' + (n - 1) * period < TWO_63
  {
    assert n * period == period + (n - 1) * period;
    assert (n - 1) * period >= 0 by { StepsApart(0, n - 1, period); }
  }

  /** A periodic task that starts once can run any number of times more, as far as the clock
      goes, without another Schedule. */
  lemma {:induction false} PeriodicRunsOnAndOn(s: System, p: Posted, n: nat) returns (actions: seq<Action>)
    requires Wired(s) && s.timer.kind.Repeating? && Enabled(s, LoopRun(p)) && TaskRuns(s, p)
    requires s.now + n * s.timer.period < TWO_63
    ensures SchedulesNothing(actions)
    ensures |RunFrom(s, actions).log| == |s.log| + n + 1
    ensures RunsOn(s.log, RunFrom(s, actions).log, p.closure.gen, s.runs + 1)
    decreases n
  {
    if n == 0 {
      RunFromOne(s, LoopRun(p));
      actions := [LoopRun(p)];
      var q := PeriodicRunPostsNext(s, p);
    } else {
      TimeLeft(s.now, s.now, n, s.timer.period);
      var q := PeriodicRunsAgain(s, p);
      TimeLeft(s.now, q.due, n, s.timer.period);
      var s' := Next(s, LoopRun(p));
      var s'' := RunFrom(s', NextRun(s', q));
      var rest := PeriodicRunsOnAndOn(s'', q, n - 1);
      var e := Started(p.closure.gen, s.runs + 1, p.due, s.now, Some(q.due));
      RunsOnFrom(s.log, e, RunFrom(s'', rest).log, p.closure.gen, s.runs + 1);
      actions := [LoopRun(p)] + (NextRun(s', q) + rest);
      RunsChain(s, p, NextRun(s', q), rest);
    }
  }

  // ----- A schedule is installed and runs when it was asked to

  /** Serving a cancellation logs nothing and schedules nothing. */
  lemma {:induction false} ServingLogs(s: System, caller: Option<LoopId>, s1: System)
    requires Wired(s)
    requires var c := CancelHelper(s, caller); s1 == c || (s1.lock.Some? && s1 == c.(lock := s1.lock))
    ensures var s2 := RunFrom(s1, Serving(s, caller));
            s2.log == s1.log && s2.timer.gen == s.timer.gen
  {
    if !CancelsAtOnce(s, caller) {
      var l := s.timer.thread.value;
      var p := CancelPost(s, l);
      RunThree(s1, TaskEnd(l), OtherEnd(l), LoopRun(p));
      LoopFinishes(s1, l);
    }
  }

  /** From every state of a run, a Schedule can come to install its task without another one in
      between.  It then returns true exactly when the loop runs, and the task is first due one
      delay after the call. */
  lemma {:induction false} ScheduleCanCommit(
    kind: Kind, prefix: seq<Action>, caller: Option<LoopId>, l: LoopId, period: int, entry: int)
    requires Enabled(Run(kind, prefix), ScheduleCall(caller, Some(l), period, entry))
    requires kind.Repeating? ==> period >= 1
    ensures var s := Run(kind, prefix);
            var s' := RunFrom(Next(s, ScheduleCall(caller, Some(l), period, entry)), Serving(s, caller));
            && SchedulesNothing(Serving(s, caller)) && Wired(s') && s'.timer.kind == kind
            && Enabled(s', ScheduleCommit) && s'.lock.value.loop == l && s'.loops == s.loops
            && s'.lock.value.first == entry + period && s'.lock.value.period == period
            && s'.timer.gen == s.timer.gen
            && Next(s', ScheduleCommit).log ==
               s.log + [CancelCalled(Ticket(s.tickets, s.timer.gen)),
                        Committed(s.timer.gen + 1, l in s.loops, entry + period, period)]
  {
    RunWired(kind, prefix);
    var s, call := Run(kind, prefix), ScheduleCall(caller, Some(l), period, entry);
    var s1 := Next(s, call);
    NextWired(s, call);
    CancelIsServed(s, caller, s1);
    ServingLogs(s, caller, s1);
    RunFromWired(s1, Serving(s, caller));
  }

  lemma {:induction false} CommitReady(s: System)
    requires Wired(s) && s.timer.kind.Repeating? && Enabled(s, ScheduleCommit)
    requires s.lock.value.loop in s.loops && s.lock.value.first < TWO_63
    ensures var p, s' := Installed(s), Next(s, ScheduleCommit);
            && Wired(s') && s'.timer.kind.Repeating? && p in s'.posted && TaskRuns(s', p)
            && p.due == s.lock.value.first && p.closure == Wrapper(s.timer.gen + 1) && s'.runs == 0
  {
    NextWired(s, ScheduleCommit);
    SignedDifference(s.lock.value.first - s.now);
  }

  /** An installed periodic task can start, as run number one and due when it was asked to be. */
  lemma {:induction false} PeriodicCommitStarts(s: System)
    requires Wired(s) && s.timer.kind.Repeating? && Enabled(s, ScheduleCommit)
    requires s.lock.value.loop in s.loops && s.lock.value.first < TWO_63
    ensures var p, s' := Installed(s), Next(s, ScheduleCommit);
            var log := RunFrom(s', NextRun(s', p) + [LoopRun(p)]).log;
            && SchedulesNothing(NextRun(s', p) + [LoopRun(p)])
            && |log| == |s'.log| + 1 && RunsOn(s'.log, log, s.timer.gen + 1, 1)
            && log[|s'.log|].due == s.lock.value.first
  {
    var p, s' := Installed(s), Next(s, ScheduleCommit);
    CommitReady(s);
    ReadyAgain(s', p);
    var ready := RunFrom(s', NextRun(s', p));
    var q := PeriodicRunPostsNext(ready, p);
    RunFromThen(s', NextRun(s', p), [LoopRun(p)]);
    RunFromOne(ready, LoopRun(p));
  }
}
