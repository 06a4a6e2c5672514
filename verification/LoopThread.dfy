/**
 MessageLoopThread: user threads that start it up and shut it down, and the workers
 they create.  One step is one section under `api_mutex_`, the unlocked join of a
 ShutDown, or a step of a worker.
 */
module LoopThread {
  import opened Options

  type WorkerId = nat
  type CallerId = int

  /** A worker before Run has set up its loop, inside the loop, and after Run. */
  datatype Worker = Spawned | Looping | Finished

  /** A ShutDown between its two locked sections: before and after the join. */
  datatype Caller = Joining | Deleting(worker: WorkerId)

  datatype Event =
    | Created(worker: WorkerId)
    | Entered(worker: WorkerId)
    | Left(worker: WorkerId)
    | Joined(worker: WorkerId)
    | Deleted(worker: WorkerId)

  /** The fields of the object; a loop is named by the worker that created it. */
  datatype Fields = Fields(
    thread: Option<WorkerId>,
    messageLoop: Option<WorkerId>,
    runLoop: Option<WorkerId>,
    threadId: Option<WorkerId>,
    shuttingDown: bool)

  /** A task accepted by the loop of `worker`, when the log was `after` events long. */
  datatype Posting = Posting(worker: WorkerId, after: nat)

  datatype System = System(
    fields: Fields,
    workers: seq<Worker>,
    quit: set<WorkerId>,
    callers: map<CallerId, Caller>,
    log: seq<Event>,
    posts: seq<Posting>)

  datatype Action =
    | StartUp
    | DoInThread(accepted: bool)
    | ShutDown(caller: CallerId)
    | Join(caller: CallerId)
    | Delete(caller: CallerId)
    | Enter(worker: WorkerId)
    | Leave(worker: WorkerId)

  const INITIAL: Fields := Fields(None, None, None, None, false)

  // ----- The locked sections, on the fields

  function StartedUp(f: Fields, created: WorkerId): Fields
  {
    if f.thread.Some? then f else f.(thread := Some(created))
  }

  /** Does ShutDown's first section go on to the join? */
  predicate Stops(f: Fields)
  {
    f.thread.Some? && f.messageLoop.Some? && !f.shuttingDown
  }

  function ShuttingDown(f: Fields): Fields
  {
    if Stops(f) then f.(shuttingDown := true) else f
  }

  function WorkerEntered(f: Fields, w: WorkerId): Fields
  {
    f.(messageLoop := Some(w), runLoop := Some(w), threadId := Some(w))
  }

  function WorkerLeft(f: Fields): Fields
  {
    f.(messageLoop := None, runLoop := None, threadId := None)
  }

  function ThreadDeleted(f: Fields): Fields
  {
    f.(thread := None, shuttingDown := false)
  }

  // ----- The steps

  function Init(): System
  {
    System(INITIAL, [], {}, map[], [], [])
  }

  /** A join is enabled by the end of the thread that `thread_` points to at that moment. */
  predicate Enabled(s: System, a: Action)
  {
    match a
    case StartUp => true
    case DoInThread(_) => true
    case ShutDown(c) => c !in s.callers
    case Join(c) =>
      && c in s.callers && s.callers[c].Joining?
      && s.fields.thread.Some? && s.fields.thread.value < |s.workers|
      && s.workers[s.fields.thread.value].Finished?
    case Delete(c) => c in s.callers && s.callers[c].Deleting?
    case Enter(w) => w < |s.workers| && s.workers[w].Spawned?
    case Leave(w) => w < |s.workers| && s.workers[w].Looping? && w in s.quit
  }

  function Next(s: System, a: Action): System
  {
    if !Enabled(s, a) then s else
    match a
    case StartUp =>
      var w := |s.workers|;
      if s.fields.thread.Some? then s else
        s.(fields := StartedUp(s.fields, w), workers := s.workers + [Spawned], log := s.log + [Created(w)])
    case DoInThread(accepted) =>
      if s.fields.messageLoop.None? || !accepted then s else
        s.(posts := s.posts + [Posting(s.fields.messageLoop.value, |s.log|)])
    case ShutDown(c) =>
      if !Stops(s.fields) then s else
        s.(fields := ShuttingDown(s.fields), quit := s.quit + {s.fields.messageLoop.value},
           callers := s.callers[c := Joining])
    case Join(c) =>
      var w := s.fields.thread.value;
      s.(callers := s.callers[c := Deleting(w)], log := s.log + [Joined(w)])
    case Delete(c) =>
      s.(fields := ThreadDeleted(s.fields), callers := s.callers - {c},
         log := s.log + [Deleted(s.callers[c].worker)])
    case Enter(w) =>
      s.(fields := WorkerEntered(s.fields, w), workers := s.workers[w := Looping], log := s.log + [Entered(w)])
    case Leave(w) =>
      s.(fields := WorkerLeft(s.fields), workers := s.workers[w := Finished], log := s.log + [Left(w)])
  }

  function Run(actions: seq<Action>): System
  {
    if actions == [] then Init() else
      var n := |actions| - 1;
      Next(Run(actions[..n]), actions[n])
  }

  // ----- Every run is one life cycle after the other

  /** The n-th event of a thread object that lives worker by worker. */
  function LifeCycle(n: nat): Event
  {
    var w := n / 5;
    match n % 5
    case 0 => Created(w)
    case 1 => Entered(w)
    case 2 => Left(w)
    case 3 => Joined(w)
    case _ => Deleted(w)
  }

  ghost predicate Orderly(log: seq<Event>)
  {
    forall n | 0 <= n < |log| :: log[n] == LifeCycle(n)
  }

  /** The state in each of the five phases of a life cycle. */
  ghost predicate InPhase(s: System)
  {
    var w, phase, f := |s.log| / 5, |s.log| % 5, s.fields;
    && |s.workers| == (if phase == 0 then w else w + 1)
    && (forall v | 0 <= v < w :: s.workers[v].Finished?)
    && (forall c, d | c in s.callers && d in s.callers :: c == d)
    && (phase != 0 ==> f.thread == Some(w))
    && (phase != 2 ==> f == INITIAL.(thread := f.thread, shuttingDown := f.shuttingDown))
    && (forall c | c in s.callers :: s.callers[c] == if phase == 4 then Deleting(w) else Joining)
    && (f.shuttingDown <==> s.callers != map[])
    && (forall q | q in s.quit :: q <= w && (q == w ==> phase >= 2 && f.shuttingDown))
    && match phase
       case 0 => f == INITIAL
       case 1 => s.workers[w].Spawned? && !f.shuttingDown
       case 2 => s.workers[w].Looping? && f == Fields(Some(w), Some(w), Some(w), Some(w), f.shuttingDown)
       case _ => s.workers[w].Finished? && f.shuttingDown
  }

  lemma {:induction false} NextInPhase(s: System, a: Action)
    requires InPhase(s) && Orderly(s.log)
    ensures InPhase(Next(s, a)) && Orderly(Next(s, a).log)
  {
    if a.ShutDown? || a.Join? || a.Delete? { ShutDownInPhase(s, a); } else { WorkerInPhase(s, a); }
  }

  /** The steps of ShutDown. */
  lemma {:induction false} ShutDownInPhase(s: System, a: Action)
    requires InPhase(s) && Orderly(s.log) && (a.ShutDown? || a.Join? || a.Delete?)
    ensures InPhase(Next(s, a)) && Orderly(Next(s, a).log)
  {
    StepGrows(s.log, Next(s, a).log);
  }

  /** The other steps: of StartUp, of DoInThread and of the workers. */
  lemma {:induction false} WorkerInPhase(s: System, a: Action)
    requires InPhase(s) && Orderly(s.log) && !(a.ShutDown? || a.Join? || a.Delete?)
    ensures InPhase(Next(s, a)) && Orderly(Next(s, a).log)
  {
    StepGrows(s.log, Next(s, a).log);
  }

  /** One more event moves the phase on by one. */
  lemma {:induction false} StepGrows(log: seq<Event>, log': seq<Event>)
    requires log' == log || (|log'| == |log| + 1 && log'[..|log|] == log)
    ensures var n := |log|;
            && n == 5 * (n / 5) + n % 5
            && (n + 1) % 5 == (if n % 5 == 4 then 0 else n % 5 + 1)
            && (n + 1) / 5 == (if n % 5 == 4 then n / 5 + 1 else n / 5)
    ensures Orderly(log) && log' != log ==> (Orderly(log') <==> log'[|log|] == LifeCycle(|log|))
  {
    if log' != log { assert forall k | 0 <= k < |log| :: log'[k] == log[k]; }
  }

  lemma {:induction false} RunInPhase(actions: seq<Action>)
    ensures InPhase(Run(actions)) && Orderly(Run(actions).log)
  {
    if actions != [] {
      var n := |actions| - 1;
      RunInPhase(actions[..n]);
      NextInPhase(Run(actions[..n]), actions[n]);
    }
  }

  // ----- The theorems, for every interleaving

  /** No event of a run repeats: a worker is created, entered, left, joined and deleted at
      most once each. */
  lemma {:induction false} EachEventOnce(actions: seq<Action>, i: nat, j: nat)
    requires i < j < |Run(actions).log|
    ensures Run(actions).log[i] != Run(actions).log[j]
  {
    RunInPhase(actions);
    var log := Run(actions).log;
    assert log[i] == LifeCycle(i) && log[j] == LifeCycle(j);
    assert i == 5 * (i / 5) + i % 5 && j == 5 * (j / 5) + j % 5;
  }

  /** A thread object is deleted only after its worker left Run and was joined, and the next
      worker is created only after that. */
  lemma {:induction false} DeletedAfterJoined(actions: seq<Action>, i: nat)
    requires i < |Run(actions).log|
    ensures var log := Run(actions).log; var e := log[i];
            && (e.Joined? ==> i >= 1 && log[i - 1] == Left(e.worker))
            && (e.Deleted? ==> i >= 2 && log[i - 1] == Joined(e.worker) && log[i - 2] == Left(e.worker))
            && (e.Created? && i > 0 ==> e.worker > 0 && log[i - 1] == Deleted(e.worker - 1))
  {
    RunInPhase(actions);
    var log := Run(actions).log;
    assert log[i] == LifeCycle(i) && i == 5 * (i / 5) + i % 5;
    if i >= 1 {
      assert log[i - 1] == LifeCycle(i - 1);
      assert (i - 1) / 5 == if i % 5 == 0 then i / 5 - 1 else i / 5;
    }
    if i >= 2 && i % 5 >= 2 { assert log[i - 2] == LifeCycle(i - 2) && (i - 2) / 5 == i / 5; }
  }

  lemma {:induction false} AtMostOneWorker(actions: seq<Action>, v: WorkerId, w: WorkerId)
    requires var s := Run(actions); v < |s.workers| && w < |s.workers|
    requires var s := Run(actions); !s.workers[v].Finished? && !s.workers[w].Finished?
    ensures v == w && Run(actions).fields.thread == Some(v)
  {
    RunInPhase(actions);
  }

  /** The fields agree: without a thread there is no loop and no thread id, and there is a
      loop exactly while a worker is inside Run. */
  lemma {:induction false} FieldsAgree(actions: seq<Action>)
    ensures var s := Run(actions); var f := s.fields;
            && (f.thread.None? ==> f == INITIAL)
            && f.messageLoop == f.runLoop == f.threadId
            && (f.messageLoop.Some? <==> exists w | 0 <= w < |s.workers| :: s.workers[w].Looping?)
            && (f.messageLoop.Some? ==> f.messageLoop == f.thread)
  {
    RunInPhase(actions);
    var s := Run(actions);
    var w := |s.log| / 5;
    if |s.log| % 5 == 2 { assert s.workers[w].Looping?; }
  }

  /** The post happened after its worker entered Run, and the next event after it, if there
      is one, is that worker's leaving Run. */
  ghost predicate WhileLooping(log: seq<Event>, p: Posting)
  {
    && 1 <= p.after <= |log| && log[p.after - 1] == Entered(p.worker)
    && (p.after < |log| ==> log[p.after] == Left(p.worker))
  }

  lemma {:induction false} StillWhileLooping(log: seq<Event>, log': seq<Event>, p: Posting)
    requires Orderly(log) && Orderly(log') && (log' == log || (|log'| == |log| + 1 && log'[..|log|] == log))
    requires WhileLooping(log, p)
    ensures WhileLooping(log', p)
  {
    StepGrows(log, log');
    var n := |log|;
    assert log'[p.after - 1] == log[p.after - 1];
    if p.after == n < |log'| {
      assert log[n - 1] == LifeCycle(n - 1) && log'[n] == LifeCycle(n);
    } else if p.after < n {
      assert log'[p.after] == log[p.after];
    }
  }

  lemma {:induction false} PostingWhileLooping(s: System)
    requires InPhase(s) && Orderly(s.log) && s.fields.messageLoop.Some?
    ensures WhileLooping(s.log, Posting(s.fields.messageLoop.value, |s.log|))
  {
    var n := |s.log|;
    assert n % 5 == 2 && s.log[n - 1] == LifeCycle(n - 1) && (n - 1) / 5 == n / 5;
  }

  lemma {:induction false} NextPostsWhileLooping(s: System, a: Action)
    requires InPhase(s) && Orderly(s.log) && forall p | p in s.posts :: WhileLooping(s.log, p)
    ensures forall p | p in Next(s, a).posts :: WhileLooping(Next(s, a).log, p)
  {
    NextInPhase(s, a);
    forall p | p in Next(s, a).posts ensures WhileLooping(Next(s, a).log, p) {
      if p in s.posts { StillWhileLooping(s.log, Next(s, a).log, p); } else { PostingWhileLooping(s); }
    }
  }

  /** Every task that DoInThread got accepted went to a worker that had entered Run and not
      left it: in the whole run nothing but that worker's leaving follows directly. */
  lemma {:induction false} PostedWhileLooping(actions: seq<Action>)
    ensures forall p | p in Run(actions).posts :: WhileLooping(Run(actions).log, p)
  {
    if actions != [] {
      var n := |actions| - 1;
      PostedWhileLooping(actions[..n]);
      RunInPhase(actions[..n]);
      NextPostsWhileLooping(Run(actions[..n]), actions[n]);
    }
  }

  /** ShutDown never joins through a null pointer, at most one call is past its first
      section, and it deletes the very thread it joined. */
  lemma {:induction false} ShutDownOwnsTheThread(actions: seq<Action>, c: CallerId)
    requires c in Run(actions).callers
    ensures var s := Run(actions);
            && s.callers.Keys == {c} && s.fields.shuttingDown && s.fields.thread.Some?
            && (s.callers[c].Deleting? ==> s.fields.thread == Some(s.callers[c].worker))
  {
    RunInPhase(actions);
    var s := Run(actions);
    assert forall d :: d in s.callers.Keys <==> d == c;
    assert s.callers != map[];
  }

  // ----- What can always be done

  function RunFrom(s: System, actions: seq<Action>): System
    decreases |actions|
  {
    if actions == [] then s else RunFrom(Next(s, actions[0]), actions[1..])
  }

  lemma {:induction false} RunTwo(s: System, a: Action, b: Action)
    ensures RunFrom(s, [a, b]) == Next(Next(s, a), b)
  {
    assert [a, b][1..] == [b] && [b][1..] == [];
    assert RunFrom(Next(s, a), [b]) == RunFrom(Next(Next(s, a), b), []);
  }

  lemma {:induction false} RunFour(s: System, a: Action, b: Action, c: Action, d: Action)
    ensures RunFrom(s, [a, b, c, d]) == Next(Next(Next(Next(s, a), b), c), d)
  {
    assert [a, b, c, d][1..] == [b, c, d] && [b, c, d][1..] == [c, d];
    assert RunFrom(Next(s, a), [b, c, d]) == RunFrom(Next(Next(s, a), b), [c, d]);
    RunTwo(Next(Next(s, a), b), c, d);
  }

  /** From every state without a thread, StartUp brings a loop up; with one it does nothing. */
  lemma {:induction false} StartUpStarts(actions: seq<Action>)
    ensures var s := Run(actions); var w := |s.workers|;
            if s.fields.thread.Some? then Next(s, StartUp) == s
            else
              var s' := RunFrom(s, [StartUp, Enter(w)]);
              && s'.fields == Fields(Some(w), Some(w), Some(w), Some(w), false)
              && s'.log == s.log + [Created(w), Entered(w)] && s'.callers == s.callers
  {
    RunInPhase(actions);
    var s := Run(actions);
    if s.fields.thread.None? { RunTwo(s, StartUp, Enter(|s.workers|)); }
  }

  /** From every state with a running loop and no ShutDown under way, ShutDown can come to its end:
      its worker leaves, is joined and deleted, and all fields are as at the beginning. */
  lemma {:induction false} ShutDownStops(actions: seq<Action>, c: CallerId)
    requires Run(actions).fields.messageLoop.Some? && !Run(actions).fields.shuttingDown
    ensures var s := Run(actions); var w := s.fields.messageLoop.value;
            var s' := RunFrom(s, [ShutDown(c), Leave(w), Join(c), Delete(c)]);
            && s'.fields == INITIAL && s'.callers == map[]
            && s'.log == s.log + [Left(w), Joined(w), Deleted(w)]
  {
    RunInPhase(actions);
    var s := Run(actions);
    var w := s.fields.messageLoop.value;
    RunFour(s, ShutDown(c), Leave(w), Join(c), Delete(c));
    var s1 := Next(s, ShutDown(c));
    assert s1.callers == map[c := Joining] && w in s1.quit;
    var s2 := Next(s1, Leave(w));
    assert s2.workers[w].Finished? && s2.log == s.log + [Left(w)];
    var s3 := Next(s2, Join(c));
    assert s3.callers == map[c := Deleting(w)] && s3.log == s.log + [Left(w), Joined(w)];
  }

  /** Without a running loop, or with a ShutDown under way, ShutDown does nothing. */
  lemma {:induction false} ShutDownRefused(actions: seq<Action>, c: CallerId)
    requires Run(actions).fields.messageLoop.None? || Run(actions).fields.shuttingDown
    ensures Next(Run(actions), ShutDown(c)) == Run(actions)
  {
  }

  /** A task is posted if and only if there is a running loop and it accepts. */
  lemma {:induction false} PostsToRunningLoop(actions: seq<Action>, accepted: bool)
    ensures var s := Run(actions); var s' := Next(s, Action.DoInThread(accepted));
            && s'.log == s.log && s'.fields == s.fields
            && ((exists w | 0 <= w < |s.workers| :: s.workers[w].Looping?) && accepted <==> |s'.posts| == |s.posts| + 1)
            && (s'.posts == s.posts ||
                (s.fields.thread.Some? && s'.posts == s.posts + [Posting(s.fields.thread.value, |s.log|)]))
  {
    FieldsAgree(actions);
  }

  // ----- The object

  class MessageLoopThread {
    var thread: Option<WorkerId>
    var messageLoop: Option<WorkerId>
    var runLoop: Option<WorkerId>
    var threadId: Option<WorkerId>
    var isShuttingDown: bool

    ghost function Value(): Fields
      reads this
    {
      Fields(thread, messageLoop, runLoop, threadId, isShuttingDown)
    }

    constructor ()
      ensures Value() == INITIAL
    {
      thread, messageLoop, runLoop, threadId, isShuttingDown := None, None, None, None, false;
    }

    method StartUp(created: WorkerId) returns (spawned: bool)
      modifies this
      ensures Value() == StartedUp(old(Value()), created)
      ensures spawned == old(thread).None?
    {
      spawned := thread.None?;
      if spawned { thread := Some(created); }
    }

    /** DoInThreadDelayed: whether the task was posted, and to which loop; `accepted` is the
        answer of the task runner. */
    method DoInThread(accepted: bool) returns (ok: bool, postedTo: Option<WorkerId>)
      ensures ok <==> postedTo.Some?
      ensures forall s: System | s.fields == Value() ::
                Next(s, Action.DoInThread(accepted)) ==
                s.(posts := s.posts + if ok then [Posting(postedTo.value, |s.log|)] else [])
    {
      ok, postedTo := false, None;
      if messageLoop.None? {
        return;
      }
      if !accepted {
        return;
      }
      return true, messageLoop;
    }

    /** The first locked section of ShutDown; `join` tells whether a join follows. */
    method BeginShutDown() returns (join: bool)
      modifies this`isShuttingDown
      ensures Value() == ShuttingDown(old(Value()))
      ensures join == Stops(old(Value()))
    {
      join := false;
      if thread.None? { return; }
      if messageLoop.None? { return; }
      if isShuttingDown { return; }
      isShuttingDown, join := true, true;
    }

    method EndShutDown()
      modifies this`thread, this`isShuttingDown
      ensures Value() == ThreadDeleted(old(Value()))
    {
      thread, isShuttingDown := None, false;
    }

    method EnterRun(worker: WorkerId)
      modifies this
      ensures Value() == WorkerEntered(old(Value()), worker)
    {
      messageLoop, runLoop, threadId := Some(worker), Some(worker), Some(worker);
    }

    method LeaveRun()
      modifies this
      ensures Value() == WorkerLeft(old(Value()))
    {
      threadId, messageLoop, runLoop := None, None, None;
    }
  }
}
