/** What every run of the timer protocol keeps, and what follows for its history. */
module TimerSafety {
  import opened Options
  import opened MachineInts
  import opened TimerGrid
  import opened TimerProtocol

  // ----- The state invariant

  /** No task of generation g or older can start before the timer is scheduled again. */
  ghost predicate Quiet(s: System, g: nat)
  {
    || g < s.timer.gen
    || !s.timer.armed
    || s.timer.thread.None?
    || forall p | p in s.posted :: p.closure != Wrapper(s.timer.gen)
  }

  ghost predicate PostedOk(s: System, p: Posted)
  {
    && p.serial < s.serial
    && p.loop in s.loops
    && match p.closure
       case Wrapper(g) => g <= s.timer.gen && (g == s.timer.gen ==> s.timer.thread in {None, Some(p.loop)})
       case CancelClosure(k) =>
         && k.id < s.tickets
         && k.gen <= s.timer.gen && (k.gen == s.timer.gen ==> s.timer.thread in {None, Some(p.loop)})
  }

  ghost predicate OneWrapper(s: System)
  {
    forall p, q | p in s.posted && q in s.posted && p.closure == q.closure == Wrapper(s.timer.gen) :: p == q
  }

  ghost predicate RequestOk(s: System, r: Request)
  {
    && 0 <= r.first - r.period <= s.now
    && -TWO_63 <= r.period < TWO_63
    && (s.timer.kind.Repeating? ==> 1 <= r.period)
  }

  /** When the posted wrapper of an armed timer may run. */
  ghost predicate DueOk(s: System, due: int)
  {
    var t := s.timer;
    match t.kind
    case Once => t.period >= 0 ==> due == s.first
    case Repeating => t.expected <= due && OnGrid(s.first, due, t.period)
  }

  ghost predicate ArmedOk(s: System)
  {
    var t := s.timer;
    t.armed ==>
      && t.task == Some(t.gen)
      && (t.kind.Repeating? ==> 1 <= t.period < TWO_63 && 0 <= s.first && t.expected == s.first + s.runs * t.period)
      && (forall p | p in s.posted && p.closure == Wrapper(t.gen) :: DueOk(s, p.due))
  }

  ghost predicate Wired(s: System)
  {
    && 0 <= s.now < TWO_63
    && s.busy <= s.loops
    && (forall p | p in s.posted :: PostedOk(s, p))
    && OneWrapper(s)
    && ArmedOk(s)
    && (forall k | k in s.done :: k.gen <= s.timer.gen && Quiet(s, k.gen))
    && (s.lock.Some? ==> RequestOk(s, s.lock.value))
  }

  // ----- Every step keeps it

  lemma {:induction false} CancelHelperWired(s: System, caller: Option<LoopId>)
    requires Wired(s)
    ensures Wired(CancelHelper(s, caller))
  {
    var s' := CancelHelper(s, caller);
    if s.timer.thread.Some? && s.timer.thread.value !in s.loops {
      assert Quiet(s', s.timer.gen);
    }
    forall k | k in s'.done ensures k.gen <= s'.timer.gen && Quiet(s', k.gen) {
      if k in s.done { assert Quiet(s, k.gen); }
    }
  }

  lemma {:induction false} CommitWired(s: System)
    requires Wired(s) && s.lock.Some?
    ensures Wired(Commit(s, s.lock.value))
  {
    var r := s.lock.value;
    var s' := Commit(s, r);
    if s'.timer.armed && r.period >= 0 {
      SignedDifference(r.first - s.now);
      OnGridIntro(r.first, r.first, r.period, 0);
    }
  }

  lemma {:induction false} RepostedDue(s: System, p: Posted)
    requires Wired(s) && Enabled(s, LoopRun(p)) && TaskRuns(s, p) && s.timer.kind.Repeating?
    ensures var d := NextDelay(s.timer.expected, s.timer.period, s.now);
            var t := TaskStarted(s.timer, s.now).0;
            && 0 <= s.timer.expected <= s.now
            && t.expected == s.first + (s.runs + 1) * t.period
            && t.expected <= s.now + d && OnGrid(s.first, s.now + d, t.period)
  {
    assert DueOk(s, p.due);
    NextRunOnGrid(s.first, s.runs, s.timer.period, s.now);
  }

  lemma {:induction false} RunClosureWired(s: System, p: Posted)
    requires Wired(s) && Enabled(s, LoopRun(p))
    ensures Wired(RunClosure(s, p))
  {
    if p.closure.Wrapper? && TaskRuns(s, p) { StartWired(s, p); } else { NoStartWired(s, p); }
  }

  lemma {:induction false} StartWired(s: System, p: Posted)
    requires Wired(s) && Enabled(s, LoopRun(p)) && TaskRuns(s, p)
    ensures Wired(RunClosure(s, p))
  {
    var s' := RunClosure(s, p);
    if s.timer.kind.Repeating? { RepostedDue(s, p); }
    forall q | q in s'.posted ensures PostedOk(s', q) {
      if q in s.posted { assert PostedOk(s, q); } else { assert PostedOk(s, p); }
    }
    forall k | k in s'.done ensures k.gen <= s'.timer.gen && Quiet(s', k.gen) { assert Quiet(s, k.gen); }
  }

  lemma {:induction false} NoStartWired(s: System, p: Posted)
    requires Wired(s) && Enabled(s, LoopRun(p)) && !(p.closure.Wrapper? && TaskRuns(s, p))
    ensures Wired(RunClosure(s, p))
  {
    var s' := RunClosure(s, p);
    forall k | k in s'.done ensures k.gen <= s'.timer.gen && Quiet(s', k.gen) {
      if k in s.done { assert Quiet(s, k.gen); } else { assert PostedOk(s, p); }
    }
  }

  lemma {:induction false} StopLoopWired(s: System, l: LoopId)
    requires Wired(s) && Enabled(s, LoopStop(l))
    ensures Wired(StopLoop(s, l))
  {
    var s' := StopLoop(s, l);
    forall k | k in s'.done ensures k.gen <= s'.timer.gen && Quiet(s', k.gen) {
      if k in s.done {
        assert Quiet(s, k.gen);
      } else {
        var p :| p in s.posted && p.loop == l && p.closure == CancelClosure(k);
        assert PostedOk(s, p);
        if k.gen == s.timer.gen {
          forall q | q in s'.posted ensures s.timer.thread.Some? ==> q.closure != Wrapper(s.timer.gen) {
            assert PostedOk(s, q);
          }
        }
      }
    }
  }

  lemma {:induction false} NextWired(s: System, a: Action)
    requires Wired(s)
    ensures Wired(Next(s, a))
  {
    if !Enabled(s, a) { return; }
    match a
    case ScheduleCall(caller, target, period, entry) => CancelHelperWired(s, caller);
    case ScheduleCommit => CommitWired(s);
    case CancelCall(caller) => CancelHelperWired(s, caller);
    case LoopRun(p) => RunClosureWired(s, p);
    case LoopStop(l) => StopLoopWired(s, l);
    case _ => MinorStepWired(s, a);
  }

  /** Steps that post nothing, schedule nothing and cancel nothing. */
  lemma {:induction false} MinorStepWired(s: System, a: Action)
    requires Wired(s)
    requires a.Tick? || a.CancelReturn? || a.TaskEnd? || a.OtherStart? || a.OtherEnd? || a.LoopStart? || a.LoopDestroy?
    ensures Wired(Next(s, a))
  {
    var s' := Next(s, a);
    forall p | p in s'.posted ensures PostedOk(s', p) { assert PostedOk(s, p); }
    forall k | k in s'.done ensures Quiet(s', k.gen) { assert Quiet(s, k.gen); }
  }

  lemma {:induction false} RunWired(kind: Kind, actions: seq<Action>)
    ensures Wired(Run(kind, actions)) && Run(kind, actions).timer.kind == kind
  {
    if actions != [] {
      var n := |actions| - 1;
      RunWired(kind, actions[..n]);
      NextWired(Run(kind, actions[..n]), actions[n]);
    }
  }

  // ----- What a history may contain

  function Starts(log: seq<Event>, id: nat): nat
  {
    if log == [] then 0 else
      var n := |log| - 1;
      Starts(log[..n], id) + (if log[n].Started? && log[n].id == id then 1 else 0)
  }

  /** Timing of the start `e` of a task that was scheduled by `c`. */
  ghost predicate OnTime(kind: Kind, c: Event, e: Event)
    requires c.Committed? && e.Started?
  {
    && e.due <= e.time
    && match kind
       case Once => c.period >= 0 ==> e.due == c.first
       case Repeating =>
         var next := c.first + e.nth * c.period;
         && OnGrid(c.first, e.due, c.period)
         && c.first + (e.nth - 1) * c.period <= e.due
         && e.next.Some? && OnGrid(c.first, e.next.value, c.period)
         && e.time <= e.next.value <= e.time + c.period
         && (e.time <= next ==> e.next.value == next)
         && (next < e.time ==> e.next.value < e.time + c.period)
  }

  /** May `e` happen after `past`? */
  ghost predicate Admissible(kind: Kind, past: seq<Event>, e: Event)
  {
    match e
    case Committed(id, _, _, _) =>
      forall x | x in past :: (x.Committed? ==> x.id < id) && (x.CancelCalled? ==> x.ticket.gen < id)
    case CancelCalled(k) =>
      forall x | x in past :: (x.Committed? ==> x.id <= k.gen) && (x.CancelCalled? ==> x.ticket != k)
    case CancelReturned(k) => CancelCalled(k) in past
    case Started(id, nth, _, _, _) =>
      && (exists c :: c in past && c.Committed? && c.id == id && c.ok && OnTime(kind, c, e))
      && nth == Starts(past, id) + 1
      && forall x | x in past ::
           && (x.Committed? ==> x.id <= id)
           && (x.CancelReturned? ==> x.ticket.gen < id)
           && (x.Started? && kind.Once? ==> x.id != id)
  }

  ghost predicate HistoryOk(kind: Kind, log: seq<Event>)
  {
    log != [] ==>
      var n := |log| - 1;
      HistoryOk(kind, log[..n]) && Admissible(kind, log[..n], log[n])
  }

  lemma {:induction false} HistoryAt(kind: Kind, log: seq<Event>, j: nat)
    requires HistoryOk(kind, log) && j < |log|
    ensures Admissible(kind, log[..j], log[j])
  {
    var n := |log| - 1;
    if j < n {
      HistoryAt(kind, log[..n], j);
      assert log[..n][..j] == log[..j];
    }
  }

  lemma {:induction false} HistoryAppend(kind: Kind, log: seq<Event>, e: Event)
    requires HistoryOk(kind, log) && Admissible(kind, log, e)
    ensures HistoryOk(kind, log + [e])
  {
    assert (log + [e])[..|log|] == log;
  }

  lemma {:induction false} StartsAppend(log: seq<Event>, e: Event, id: nat)
    ensures Starts(log + [e], id) == Starts(log, id) + (if e.Started? && e.id == id then 1 else 0)
  {
    assert (log + [e])[..|log|] == log;
  }

  lemma {:induction false} NoStarts(log: seq<Event>, id: nat)
    requires forall x | x in log :: x.Started? ==> x.id != id
    ensures Starts(log, id) == 0
  {
    if log != [] { NoStarts(log[..|log| - 1], id); }
  }

  // ----- How the state records its history

  ghost predicate EventOk(s: System, x: Event)
  {
    match x
    case Committed(id, _, _, _) => id <= s.timer.gen
    case Started(id, _, _, _, _) => id <= s.timer.gen && (s.timer.kind.Once? && id == s.timer.gen ==> !s.timer.armed)
    case CancelCalled(k) => k.gen <= s.timer.gen && k.id < s.tickets
    case CancelReturned(k) => k in s.done
  }

  /** What the fields say of single events. */
  ghost predicate Noted(s: System)
  {
    && (forall x | x in s.log :: EventOk(s, x))
    && (forall k | k in s.done :: CancelCalled(k) in s.log)
    && (forall p | p in s.posted && p.closure.CancelClosure? :: CancelCalled(p.closure.ticket) in s.log)
    && (s.timer.armed ==> Committed(s.timer.gen, true, s.first, s.timer.period) in s.log)
  }

  ghost predicate Recorded(s: System)
  {
    HistoryOk(s.timer.kind, s.log) && Noted(s) && s.runs == Starts(s.log, s.timer.gen)
  }

  lemma {:induction false} CancelHelperNoted(s: System, caller: Option<LoopId>)
    requires Noted(s)
    ensures Noted(CancelHelper(s, caller))
    ensures Admissible(s.timer.kind, s.log, CancelCalled(Ticket(s.tickets, s.timer.gen)))
  {
    var k, s' := Ticket(s.tickets, s.timer.gen), CancelHelper(s, caller);
    assert s'.log == s.log + [CancelCalled(k)];
    forall x | x in s.log
      ensures EventOk(s', x) && (x.Committed? ==> x.id <= k.gen) && (x.CancelCalled? ==> x.ticket != k)
    {
      assert EventOk(s, x);
    }
    assert EventOk(s', CancelCalled(k));
  }

  lemma {:induction false} CancelHelperRecorded(s: System, caller: Option<LoopId>)
    requires Recorded(s)
    ensures Recorded(CancelHelper(s, caller))
  {
    var e := CancelCalled(Ticket(s.tickets, s.timer.gen));
    CancelHelperNoted(s, caller);
    HistoryAppend(s.timer.kind, s.log, e);
    StartsAppend(s.log, e, s.timer.gen);
  }

  lemma {:induction false} CommitRecorded(s: System, r: Request)
    requires Recorded(s)
    ensures Recorded(Commit(s, r))
  {
    var s' := Commit(s, r);
    var e := Committed(s'.timer.gen, r.loop in s.loops, r.first, r.period);
    assert Admissible(s.timer.kind, s.log, e) by {
      forall x | x in s.log ensures (x.Committed? ==> x.id < e.id) && (x.CancelCalled? ==> x.ticket.gen < e.id) {
        assert EventOk(s, x);
      }
    }
    HistoryAppend(s.timer.kind, s.log, e);
    forall x | x in s'.log ensures EventOk(s', x) && (x.Started? ==> x.id != e.id) {
      if x in s.log { assert EventOk(s, x); }
    }
    NoStarts(s'.log, e.id);
  }

  lemma {:induction false} StartOnTime(s: System, p: Posted)
    requires Wired(s) && Enabled(s, LoopRun(p)) && TaskRuns(s, p)
    ensures var log := RunClosure(s, p).log;
            && log == s.log + [log[|s.log|]] && log[|s.log|].Started?
            && OnTime(s.timer.kind, Committed(s.timer.gen, true, s.first, s.timer.period), log[|s.log|])
  {
    assert DueOk(s, p.due);
    if s.timer.kind.Repeating? {
      RepostedDue(s, p);
      NextDelayOnGrid(s.timer.expected, s.timer.period, s.now);
    }
  }

  /** A start satisfies everything the history promises about it. */
  lemma {:induction false} StartAdmissible(s: System, p: Posted)
    requires Wired(s) && Recorded(s) && Enabled(s, LoopRun(p)) && TaskRuns(s, p)
    ensures var log := RunClosure(s, p).log;
            log == s.log + [log[|s.log|]] && log[|s.log|].Started? && Admissible(s.timer.kind, s.log, log[|s.log|])
  {
    var t := s.timer;
    StartOnTime(s, p);
    forall x | x in s.log
      ensures (x.Committed? ==> x.id <= t.gen) && (x.CancelReturned? ==> x.ticket.gen < t.gen)
      ensures x.Started? && t.kind.Once? ==> x.id != t.gen
    {
      assert EventOk(s, x);
      if x.CancelReturned? { assert Quiet(s, x.ticket.gen); }
    }
  }

  lemma {:induction false} RunClosureRecorded(s: System, p: Posted)
    requires Wired(s) && Recorded(s) && Enabled(s, LoopRun(p))
    ensures Recorded(RunClosure(s, p))
  {
    if p.closure.Wrapper? && TaskRuns(s, p) {
      StartRecorded(s, p);
    } else {
      SilentRecorded(s, RunClosure(s, p));
    }
  }

  lemma {:induction false} StartRecorded(s: System, p: Posted)
    requires Wired(s) && Recorded(s) && Enabled(s, LoopRun(p)) && TaskRuns(s, p)
    ensures Recorded(RunClosure(s, p))
  {
    var s' := RunClosure(s, p);
    StartAdmissible(s, p);
    HistoryAppend(s.timer.kind, s.log, s'.log[|s.log|]);
    StartsAppend(s.log, s'.log[|s.log|], s.timer.gen);
    forall x | x in s.log ensures EventOk(s', x) { assert EventOk(s, x); }
    assert EventOk(s', s'.log[|s.log|]);
  }

  /** A step that logs nothing and arms nothing keeps the record. */
  lemma {:induction false} SilentRecorded(s: System, s': System)
    requires Recorded(s)
    requires s'.log == s.log && s'.tickets == s.tickets && s'.runs == s.runs
    requires s'.timer.kind == s.timer.kind && s'.timer.gen == s.timer.gen
    requires s'.timer.armed ==> s.timer.armed && s'.first == s.first && s'.timer.period == s.timer.period
    requires s.done <= s'.done && forall k | k in s'.done :: CancelCalled(k) in s.log
    requires forall p | p in s'.posted && p.closure.CancelClosure? :: CancelCalled(p.closure.ticket) in s.log
    ensures Recorded(s')
  {
    forall x | x in s'.log ensures EventOk(s', x) { assert EventOk(s, x); }
  }

  lemma {:induction false} ReturnRecorded(s: System, k: Ticket)
    requires Recorded(s) && k in s.done
    ensures Recorded(s.(log := s.log + [CancelReturned(k)]))
  {
    var s' := s.(log := s.log + [CancelReturned(k)]);
    HistoryAppend(s.timer.kind, s.log, CancelReturned(k));
    StartsAppend(s.log, CancelReturned(k), s.timer.gen);
    forall x | x in s'.log ensures EventOk(s', x) { if x in s.log { assert EventOk(s, x); } }
  }

  lemma {:induction false} NextRecorded(s: System, a: Action)
    requires Wired(s) && Recorded(s)
    ensures Recorded(Next(s, a))
  {
    if Enabled(s, a) {
      match a
      case ScheduleCall(caller, target, period, entry) =>
        CancelHelperRecorded(s, caller);
        if Next(s, a) != s { SilentRecorded(CancelHelper(s, caller), Next(s, a)); }
      case ScheduleCommit => CommitRecorded(s, s.lock.value);
      case CancelCall(caller) => CancelHelperRecorded(s, caller);
      case LoopRun(p) => RunClosureRecorded(s, p);
      case CancelReturn(k) => ReturnRecorded(s, k);
      case _ => SilentRecorded(s, Next(s, a));
    }
  }

  lemma {:induction false} RunRecorded(kind: Kind, actions: seq<Action>)
    ensures Recorded(Run(kind, actions))
  {
    if actions != [] {
      var n := |actions| - 1;
      RunRecorded(kind, actions[..n]);
      RunWired(kind, actions[..n]);
      NextRecorded(Run(kind, actions[..n]), actions[n]);
    }
  }

  // ----- The theorems, for every run of either timer

  /** At most one posted wrapper is live. */
  lemma {:induction false} AtMostOneLiveWrapper(kind: Kind, actions: seq<Action>, p: Posted, q: Posted)
    requires var s := Run(kind, actions);
             p in s.posted && q in s.posted && Live(s.timer, p) && Live(s.timer, q)
    ensures p == q
  {
    RunWired(kind, actions);
  }

  /** RunTask's CHECK on the thread id never fails, and the closure it runs is neither
      null nor any other than the one its wrapper was armed with. */
  lemma {:induction false} RunTaskFindsItsTask(kind: Kind, actions: seq<Action>, p: Posted)
    requires var s := Run(kind, actions);
             Enabled(s, LoopRun(p)) && Live(s.timer, p) && s.timer.thread.Some?
    ensures var t := Run(kind, actions).timer;
            t.thread == Some(p.loop) && t.task == Some(p.closure.gen) && TaskRuns(Run(kind, actions), p)
  {
    RunWired(kind, actions);
    assert PostedOk(Run(kind, actions), p);
  }

  /** A OnceTimer starts the task of one Schedule at most once. */
  lemma {:induction false} OnceRunsAtMostOnce(actions: seq<Action>, i: nat, j: nat)
    requires var log := Run(Once, actions).log; i < j < |log| && log[i].Started? && log[j].Started?
    ensures var log := Run(Once, actions).log; log[i].id != log[j].id
  {
    RunRecorded(Once, actions);
    RunWired(Once, actions);
    var log := Run(Once, actions).log;
    HistoryAt(Once, log, j);
    assert log[i] in log[..j];
  }

  /** Whatever starts after a Schedule has installed its task is that task or a later one. */
  lemma {:induction false} ReplacedNeverStarts(kind: Kind, actions: seq<Action>, i: nat, j: nat)
    requires var log := Run(kind, actions).log; i < j < |log| && log[i].Committed? && log[j].Started?
    ensures var log := Run(kind, actions).log; log[i].id <= log[j].id
  {
    RunRecorded(kind, actions);
    RunWired(kind, actions);
    var log := Run(kind, actions).log;
    HistoryAt(kind, log, j);
    assert log[i] in log[..j];
  }

  /** Every start belongs to a Schedule that returned true, and only one Schedule bears its name. */
  lemma {:induction false} StartedWasScheduled(kind: Kind, actions: seq<Action>, k: nat) returns (m: nat)
    requires var log := Run(kind, actions).log; k < |log| && log[k].Started?
    ensures var log := Run(kind, actions).log;
            && m < k && log[m].Committed? && log[m].ok && log[m].id == log[k].id
            && OnTime(kind, log[m], log[k])
            && log[k].nth == Starts(log[..k], log[k].id) + 1
  {
    RunRecorded(kind, actions);
    RunWired(kind, actions);
    var log := Run(kind, actions).log;
    HistoryAt(kind, log, k);
    var c :| c in log[..k] && c.Committed? && c.id == log[k].id && c.ok && OnTime(kind, c, log[k]);
    m :| 0 <= m < k && log[..k][m] == c;
  }

  /** A task that starts after CancelAndWait has returned was scheduled after it was called. */
  lemma {:induction false} CancelledNeverStarts(kind: Kind, actions: seq<Action>, i: nat, j: nat, k: nat)
    returns (m: nat)
    requires var log := Run(kind, actions).log;
             && i < j < k < |log| && log[k].Started?
             && log[i].CancelCalled? && log[j] == CancelReturned(log[i].ticket)
    ensures var log := Run(kind, actions).log;
            i < m < k && log[m].Committed? && log[m].ok && log[m].id == log[k].id
  {
    m := StartedWasScheduled(kind, actions, k);
    RunRecorded(kind, actions);
    RunWired(kind, actions);
    var log := Run(kind, actions).log;
    HistoryAt(kind, log, k);
    assert log[j] in log[..k];
    HistoryAt(kind, log, i);
    forall x | 0 <= x < i && log[x].Committed? ensures log[x].id <= log[i].ticket.gen {
      assert log[x] in log[..i];
    }
  }

  /** The n-th run of a periodic task is never before the first due time plus n - 1 periods,
      its due time is on the grid of the first, and so is the next one, which a late run
      places at the first grid instant it can still reach. */
  lemma {:induction false} PeriodicRunsStayOnGrid(actions: seq<Action>, k: nat) returns (m: nat)
    requires var log := Run(Repeating, actions).log; k < |log| && log[k].Started?
    ensures var log := Run(Repeating, actions).log;
            && m < k && log[m].Committed? && log[m].ok && log[m].id == log[k].id
            && var c, e := log[m], log[k];
               && e.nth == Starts(log[..k], e.id) + 1
               && c.first + (e.nth - 1) * c.period <= e.due <= e.time
               && OnGrid(c.first, e.due, c.period)
               && e.next.Some? && OnGrid(c.first, e.next.value, c.period)
               && e.time <= e.next.value <= e.time + c.period
               && (e.time <= c.first + e.nth * c.period ==> e.next.value == c.first + e.nth * c.period)
               && (c.first + e.nth * c.period < e.time ==>
                     forall y | e.time <= y && OnGrid(c.first, y, c.period) :: e.next.value <= y)
  {
    m := StartedWasScheduled(Repeating, actions, k);
    var log := Run(Repeating, actions).log;
    var c, e := log[m], log[k];
    if c.first + e.nth * c.period < e.time {
      forall y | e.time <= y && OnGrid(c.first, y, c.period) ensures e.next.value <= y {
        FirstReachable(c.first, e.next.value, e.time, y, c.period);
      }
    }
  }

  // ----- What is not promised: a OnceTimer scheduled by its own task can be lost

  function RunFrom(s: System, actions: seq<Action>): System
  {
    if actions == [] then s else
      var n := |actions| - 1;
      Next(RunFrom(s, actions[..n]), actions[n])
  }

  lemma {:induction false} RunFromPrefix(s: System, actions: seq<Action>, n: nat)
    requires n < |actions|
    ensures RunFrom(s, actions[..n + 1]) == Next(RunFrom(s, actions[..n]), actions[n])
  {
    assert actions[..n + 1][..n] == actions[..n];
  }

  lemma {:induction false} RunPrefix(kind: Kind, actions: seq<Action>, n: nat)
    requires n < |actions|
    ensures Run(kind, actions[..n + 1]) == Next(Run(kind, actions[..n]), actions[n])
  {
    assert actions[..n + 1][..n] == actions[..n];
  }

  predicate SchedulesNothing(actions: seq<Action>)
  {
    forall i | 0 <= i < |actions| :: !actions[i].ScheduleCommit?
  }

  /** Does a task start in this continuation? */
  predicate StartsIn(s: System, actions: seq<Action>)
  {
    exists j | |s.log| <= j < |RunFrom(s, actions).log| :: RunFrom(s, actions).log[j].Started?
  }

  /** The timer has no thread, or its thread is a loop that runs a task of this timer and
      forgets the timer when that task returns. */
  ghost predicate Doomed(s: System, l: LoopId)
  {
    || s.timer.thread.None?
    || (&& s.timer.thread == Some(l) && l in s.busy
        && forall p | p in s.posted && p.closure == Wrapper(s.timer.gen) :: p.loop == l)
  }

  lemma {:induction false} StaysDoomed(s: System, l: LoopId, a: Action)
    requires s.timer.kind.Once? && Doomed(s, l) && !a.ScheduleCommit?
    ensures var s' := Next(s, a);
            && s'.timer.kind.Once? && Doomed(s', l) && s.log <= s'.log
            && forall j | |s.log| <= j < |s'.log| :: !s'.log[j].Started?
  {
  }

  lemma {:induction false} DoomedStartsNothing(s: System, l: LoopId, actions: seq<Action>)
    requires s.timer.kind.Once? && Doomed(s, l) && SchedulesNothing(actions)
    ensures var s' := RunFrom(s, actions);
            && s'.timer.kind.Once? && Doomed(s', l) && s.log <= s'.log
            && forall j | |s.log| <= j < |s'.log| :: !s'.log[j].Started?
  {
    if actions != [] {
      var n := |actions| - 1;
      DoomedStartsNothing(s, l, actions[..n]);
      assert !actions[n].ScheduleCommit?;
      StaysDoomed(RunFrom(s, actions[..n]), l, actions[n]);
    }
  }

  /** When the task of a OnceTimer returns, whatever was scheduled while it ran and has not
      started is silenced, even if that Schedule returned true. */
  lemma {:induction false} OnceForgetsWhatItsTaskScheduled(s: System, l: LoopId, actions: seq<Action>)
    requires s.timer.kind.Once? && Enabled(s, TaskEnd(l)) && SchedulesNothing(actions)
    ensures !StartsIn(Next(s, TaskEnd(l)), actions)
  {
    DoomedStartsNothing(Next(s, TaskEnd(l)), l, actions);
  }

  /** The wrapper that a Schedule posts when it installs its task. */
  function Installed(s: System): Posted
    requires s.lock.Some?
  {
    var r := s.lock.value;
    Posted(s.serial, r.loop, Wrapper(s.timer.gen + 1), s.now + FirstDelay(r.first, s.now))
  }

  lemma {:induction false} CommitOnBusyLoop(s: System, actions: seq<Action>)
    requires Wired(s) && s.timer.kind.Once? && Enabled(s, ScheduleCommit)
    requires s.lock.value.loop in s.busy && SchedulesNothing(actions)
    ensures !StartsIn(Next(s, ScheduleCommit), actions)
  {
    var l, s' := s.lock.value.loop, Next(s, ScheduleCommit);
    forall p | p in s.posted ensures p.closure != Wrapper(s'.timer.gen) { assert PostedOk(s, p); }
    DoomedStartsNothing(s', l, actions);
  }

  /** The loop finishes what it runs, the clock reaches the due time, and the wrapper is taken. */
  function Awaited(p: Posted, now: int): seq<Action>
  {
    [OtherEnd(p.loop), Tick(if now <= p.due then p.due else now), LoopRun(p)]
  }

  lemma {:induction false} RunThree(s: System, a: Action, b: Action, c: Action)
    ensures RunFrom(s, [a, b, c]) == Next(Next(Next(s, a), b), c)
  {
    var actions := [a, b, c];
    RunFromPrefix(s, actions, 0);
    RunFromPrefix(s, actions, 1);
    RunFromPrefix(s, actions, 2);
    assert actions[..3] == actions;
  }

  lemma {:induction false} Waits(s: System, l: LoopId, t: int)
    requires s.now <= t < TWO_63
    ensures Next(Next(s, OtherEnd(l)), Tick(t)) == s.(other := s.other - {l}, now := t)
  {
    assert Next(s, OtherEnd(l)) == s.(other := s.other - {l});
  }

  lemma {:induction false} WaitingTaskStarts(s: System, p: Posted)
    requires Enabled(s, LoopRun(p)) && TaskRuns(s, p)
    ensures |s.log| < |Next(s, LoopRun(p)).log| && Next(s, LoopRun(p)).log[|s.log|].Started?
  {
  }

  lemma {:induction false} CommitOnFreeLoop(s: System)
    requires Wired(s) && s.timer.kind.Once? && Enabled(s, ScheduleCommit)
    requires s.lock.value.loop in s.loops && s.lock.value.loop !in s.busy && Installed(s).due < TWO_63
    ensures StartsIn(Next(s, ScheduleCommit), Awaited(Installed(s), s.now))
  {
    var p, s0 := Installed(s), Next(s, ScheduleCommit);
    var t := if s.now <= p.due then p.due else s.now;
    RunThree(s0, OtherEnd(p.loop), Tick(t), LoopRun(p));
    Waits(s0, p.loop, t);
    WaitingTaskStarts(s0.(other := s0.other - {p.loop}, now := t), p);
  }

  /** A Schedule of a OnceTimer whose loop accepts the post and whose due time the clock can
      reach may still be lost: its task can start, without another Schedule, if and only if
      the loop is not running a task of this very timer. */
  lemma {:induction false} OnceScheduleKept(s: System)
    requires Wired(s) && s.timer.kind.Once? && Enabled(s, ScheduleCommit)
    requires s.lock.value.loop in s.loops && Installed(s).due < TWO_63
    ensures (exists actions :: SchedulesNothing(actions) && StartsIn(Next(s, ScheduleCommit), actions)) <==>
            s.lock.value.loop !in s.busy
  {
    if s.lock.value.loop !in s.busy {
      CommitOnFreeLoop(s);
      assert SchedulesNothing(Awaited(Installed(s), s.now));
    } else {
      forall actions | SchedulesNothing(actions) ensures !StartsIn(Next(s, ScheduleCommit), actions) {
        CommitOnBusyLoop(s, actions);
      }
    }
  }

  lemma {:induction false} RunFive(kind: Kind, a: Action, b: Action, c: Action, d: Action, e: Action)
    ensures Run(kind, [a, b, c, d, e]) == Next(Next(Next(Next(Next(Init(kind), a), b), c), d), e)
  {
    var actions := [a, b, c, d, e];
    RunPrefix(kind, actions, 0);
    RunPrefix(kind, actions, 1);
    RunPrefix(kind, actions, 2);
    RunPrefix(kind, actions, 3);
    RunPrefix(kind, actions, 4);
    assert actions[..5] == actions;
  }

  /** A task scheduled on a loop that, while it runs there, schedules its timer there again. */
  function SelfSchedule(l: LoopId): seq<Action>
  {
    [LoopStart(l),
     ScheduleCall(None, Some(l), 0, 0),
     ScheduleCommit,
     LoopRun(Posted(0, l, Wrapper(1), 0)),
     ScheduleCall(Some(l), Some(l), 0, 0)]
  }

  /** The same step by step, from any state like the initial one. */
  lemma {:induction false} SchedulesOnLoop(s: System, l: LoopId)
    requires s == Init(Once).(loops := {l})
    ensures var s' := Next(Next(s, ScheduleCall(None, Some(l), 0, 0)), ScheduleCommit);
            && s'.timer == Timer(Once, Some(l), Some(1), 1, true, 0, 0)
            && s' == s.(timer := s'.timer, posted := {Posted(0, l, Wrapper(1), 0)}, serial := 1,
                        done := s'.done, tickets := 1, log := s'.log)
  {
    var called := Next(s, ScheduleCall(None, Some(l), 0, 0));
    assert called.lock == Some(Request(l, Ticket(0, 0), 0, 0)) && called.done == {Ticket(0, 0)};
    SignedDifference(0);
  }

  lemma {:induction false} ReschedulesInTask(s: System, l: LoopId)
    requires s.timer == Timer(Once, Some(l), Some(1), 1, true, 0, 0) && s.posted == {Posted(0, l, Wrapper(1), 0)}
    requires s.loops == {l} && s.busy == s.other == {} && s.lock.None? && s.now == 0
    ensures var s' := Next(Next(s, LoopRun(Posted(0, l, Wrapper(1), 0))), ScheduleCall(Some(l), Some(l), 0, 0));
            && Enabled(s', ScheduleCommit) && s'.lock.value.loop == l && s'.loops == s'.busy == {l}
            && Next(s', ScheduleCommit).log == s'.log + [Committed(2, true, 0, 0)]
  {
    var started := Next(s, LoopRun(Posted(0, l, Wrapper(1), 0)));
    assert started.busy == {l} && started.timer == Timer(Once, Some(l), None, 1, false, 0, 0);
  }

  lemma {:induction false} RunsSelfSchedule(l: LoopId)
    ensures var s := Run(Once, SelfSchedule(l));
            && Enabled(s, ScheduleCommit) && s.lock.value.loop == l && s.loops == s.busy == {l}
            && Next(s, ScheduleCommit).log == s.log + [Committed(2, true, 0, 0)]
  {
    var first, again := ScheduleCall(None, Some(l), 0, 0), ScheduleCall(Some(l), Some(l), 0, 0);
    RunFive(Once, LoopStart(l), first, ScheduleCommit, LoopRun(Posted(0, l, Wrapper(1), 0)), again);
    var s := Next(Init(Once), LoopStart(l));
    assert s == Init(Once).(loops := {l});
    SchedulesOnLoop(s, l);
    ReschedulesInTask(Next(Next(s, first), ScheduleCommit), l);
  }

  /** The last Schedule of that run returns true, and its task never starts. */
  lemma {:induction false} SelfScheduleIsLost(l: LoopId, actions: seq<Action>)
    requires SchedulesNothing(actions)
    ensures var s := Run(Once, SelfSchedule(l));
            && Next(s, ScheduleCommit).log == s.log + [Committed(2, true, 0, 0)]
            && !StartsIn(Next(s, ScheduleCommit), actions)
  {
    RunsSelfSchedule(l);
    RunWired(Once, SelfSchedule(l));
    CommitOnBusyLoop(Run(Once, SelfSchedule(l)), actions);
  }
}
