/**
 The protocol between a timer (OnceTimer or RepeatingTimer), the message loops its
 tasks run on and any number of user threads.

 One step is one section that runs under the timer's API lock, one closure run by a
 message loop, or a move of the environment.  A cancelable wrapper is a generation
 number: it is live while the timer is armed with that generation.  Posted closures
 form a set, so a loop may take any closure that is due: the results hold in
 particular for loops that take them in posting order.
 */
module TimerProtocol {
  import opened Options
  import opened MachineInts
  import opened TimerGrid

  type LoopId = int

  datatype Kind = Once | Repeating

  /** The fields of a timer.  A task is named by the generation that was armed with it. */
  datatype Timer = Timer(
    kind: Kind,
    thread: Option<LoopId>,
    task: Option<nat>,
    gen: nat,
    armed: bool,
    period: int,
    expected: int)

  /** The promise of one cancellation, and the generation current when it was asked for. */
  datatype Ticket = Ticket(id: nat, gen: nat)

  datatype Closure =
    | Wrapper(gen: nat)
    | CancelClosure(ticket: Ticket)

  datatype Posted = Posted(serial: nat, loop: LoopId, closure: Closure, due: int)

  /** A Schedule call that holds the API lock and waits for its cancellation. */
  datatype Request = Request(loop: LoopId, ticket: Ticket, first: int, period: int)

  datatype Event =
    | Committed(id: nat, ok: bool, first: int, period: int)
    | Started(id: nat, nth: nat, due: int, time: int, next: Option<int>)
    | CancelCalled(ticket: Ticket)
    | CancelReturned(ticket: Ticket)

  /** `busy` holds the loops that run a task of this timer and `other` those that run some
      other closure; `done` holds the promises that were fulfilled or abandoned; `first` and
      `runs` belong to the current generation. */
  datatype System = System(
    timer: Timer,
    posted: set<Posted>,
    serial: nat,
    loops: set<LoopId>,
    busy: set<LoopId>,
    other: set<LoopId>,
    lock: Option<Request>,
    done: set<Ticket>,
    tickets: nat,
    now: int,
    first: int,
    runs: nat,
    log: seq<Event>)

  datatype Action =
    | Tick(t: int)
    | ScheduleCall(caller: Option<LoopId>, target: Option<LoopId>, period: int, entry: int)
    | ScheduleCommit
    | CancelCall(caller: Option<LoopId>)
    | CancelReturn(ticket: Ticket)
    | LoopRun(p: Posted)
    | TaskEnd(loop: LoopId)
    | OtherStart(loop: LoopId)
    | OtherEnd(loop: LoopId)
    | LoopStart(loop: LoopId)
    | LoopStop(loop: LoopId)
    | LoopDestroy(loop: LoopId)

  // ----- The timer's own methods

  /** CancelClosure: a OnceTimer keeps its (moved-from) closure, a RepeatingTimer drops it. */
  function Cancelled(t: Timer): Timer
  {
    match t.kind
    case Once => t.(thread := None, armed := false, period := 0)
    case Repeating => t.(thread := None, armed := false, task := None, period := 0, expected := 0)
  }

  /** Schedule after the old task is cancelled; `posted` is what DoInThreadDelayed returned. */
  function Rearmed(t: Timer, loop: LoopId, first: int, period: int, posted: bool): Timer
  {
    var g := t.gen + 1;
    var expected := if t.kind.Repeating? then first else 0;
    if posted then
      t.(thread := Some(loop), task := Some(g), gen := g, armed := true, period := period, expected := expected)
    else
      t.(thread := None, task := Some(g), gen := g, armed := false, period := 0, expected := 0)
  }

  /** RunTask up to the start of the task; the delay is the next run of a RepeatingTimer.
      An armed RepeatingTimer always has a period of at least one microsecond. */
  function TaskStarted(t: Timer, now: int): (Timer, Option<int>)
  {
    match t.kind
    case Once => (t.(armed := false, task := None), None)
    case Repeating =>
      var delay := if t.period >= 1 then NextDelay(t.expected, t.period, now) else 0;
      (t.(expected := Advance(t.expected, t.period)), Some(delay))
  }

  /** What RunTask does once the task has returned. */
  function TaskEnded(t: Timer): Timer
  {
    if t.kind.Once? then t.(thread := None) else t
  }

  // ----- The steps

  predicate Live(t: Timer, p: Posted)
  {
    t.armed && p.closure == Wrapper(t.gen)
  }

  function Init(kind: Kind): System
  {
    System(Timer(kind, None, None, 0, false, 0, 0), {}, 0, {}, {}, {}, None, {}, 0, 0, 0, 0, [])
  }

  /** A caller is a user thread or a loop in the middle of a closure, the timer's own or not. */
  predicate CallerOk(s: System, caller: Option<LoopId>)
  {
    caller.Some? ==> caller.value in s.busy || caller.value in s.other
  }

  /** The loop runs and is between two closures. */
  predicate Idle(s: System, l: LoopId)
  {
    l in s.loops && l !in s.busy && l !in s.other
  }

  predicate Enabled(s: System, a: Action)
  {
    match a
    case Tick(t) => s.now <= t < TWO_63
    case ScheduleCall(caller, _, period, entry) =>
      s.lock.None? && CallerOk(s, caller) && 0 <= entry <= s.now && -TWO_63 <= period < TWO_63
    case ScheduleCommit => s.lock.Some? && s.lock.value.ticket in s.done
    case CancelCall(caller) => s.lock.None? && CallerOk(s, caller)
    case CancelReturn(ticket) => ticket in s.done
    case LoopRun(p) => p in s.posted && Idle(s, p.loop) && p.due <= s.now
    case TaskEnd(l) => l in s.busy
    case OtherStart(l) => Idle(s, l)
    case OtherEnd(l) => l in s.other
    case LoopStart(l) => l !in s.loops
    case LoopStop(l) => Idle(s, l)
    case LoopDestroy(l) => l !in s.loops && (s.lock.Some? ==> s.lock.value.loop != l)
  }

  /** CancelHelper: run the cancellation here, post it, or find nothing to wait for. */
  function CancelHelper(s: System, caller: Option<LoopId>): System
  {
    var t, k := s.timer, Ticket(s.tickets, s.timer.gen);
    var s1 := s.(tickets := s.tickets + 1, log := s.log + [CancelCalled(k)]);
    if t.thread.None? then
      s1.(done := s.done + {k})
    else if caller == t.thread then
      s1.(timer := Cancelled(t), done := s.done + {k})
    else if t.thread.value in s.loops then
      s1.(posted := s.posted + {Posted(s.serial, t.thread.value, CancelClosure(k), s.now)},
          serial := s.serial + 1)
    else // the post fails and the promise is destroyed with the closure
      s1.(done := s.done + {k})
  }

  function Commit(s: System, r: Request): System
  {
    var ok := r.loop in s.loops;
    var t := Rearmed(s.timer, r.loop, r.first, r.period, ok);
    var p := Posted(s.serial, r.loop, Wrapper(t.gen), s.now + FirstDelay(r.first, s.now));
    s.(timer := t, lock := None, first := r.first, runs := 0, serial := s.serial + 1,
       posted := if ok then s.posted + {p} else s.posted,
       log := s.log + [Committed(t.gen, ok, r.first, r.period)])
  }

  predicate TaskRuns(s: System, p: Posted)
  {
    Live(s.timer, p) && s.timer.thread.Some? && s.timer.thread.value in s.loops
  }

  /** The message loop takes `p` and runs its closure. */
  function RunClosure(s: System, p: Posted): System
  {
    var s1 := s.(posted := s.posted - {p});
    match p.closure
    case CancelClosure(k) => s1.(timer := Cancelled(s.timer), done := s.done + {k})
    case Wrapper(g) =>
      if !TaskRuns(s, p) then s1 else
        var (t, delay) := TaskStarted(s.timer, s.now);
        var next := if delay.Some? then Some(s.now + delay.value) else None;
        var s2 := s1.(timer := t, busy := s.busy + {p.loop}, runs := s.runs + 1,
                      log := s.log + [Started(g, s.runs + 1, p.due, s.now, next)]);
        if next.None? then s2 else
          s2.(posted := s1.posted + {Posted(s.serial, p.loop, Wrapper(g), next.value)}, serial := s.serial + 1)
  }

  /** The loop quits: closures still posted to it are destroyed, and with them their promises. */
  function StopLoop(s: System, l: LoopId): System
  {
    s.(loops := s.loops - {l},
       posted := (set p | p in s.posted && p.loop != l),
       done := s.done + Abandoned(s.posted, l))
  }

  function Abandoned(posted: set<Posted>, l: LoopId): set<Ticket>
  {
    set p | p in posted && p.loop == l && p.closure.CancelClosure? :: p.closure.ticket
  }

  function Next(s: System, a: Action): System
  {
    if !Enabled(s, a) then s else
    match a
    case Tick(t) => s.(now := t)
    case ScheduleCall(caller, target, period, entry) =>
      if target.None? || (s.timer.kind.Repeating? && period < 1) then s else
        var k := Ticket(s.tickets, s.timer.gen);
        CancelHelper(s, caller).(lock := Some(Request(target.value, k, entry + period, period)))
    case ScheduleCommit => Commit(s, s.lock.value)
    case CancelCall(caller) => CancelHelper(s, caller)
    case CancelReturn(k) => s.(log := s.log + [CancelReturned(k)])
    case LoopRun(p) => RunClosure(s, p)
    case TaskEnd(l) => s.(busy := s.busy - {l}, timer := TaskEnded(s.timer))
    case OtherStart(l) => s.(other := s.other + {l})
    case OtherEnd(l) => s.(other := s.other - {l})
    case LoopStart(l) => s.(loops := s.loops + {l})
    case LoopStop(l) => StopLoop(s, l)
    case LoopDestroy(l) =>
      if s.timer.thread == Some(l) then s.(timer := s.timer.(thread := None)) else s
  }

  /** The state after a run; an action that is not enabled is skipped. */
  function Run(kind: Kind, actions: seq<Action>): System
  {
    if actions == [] then Init(kind) else
      var n := |actions| - 1;
      Next(Run(kind, actions[..n]), actions[n])
  }
}
