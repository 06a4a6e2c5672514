/** The output stream of the legacy A2DP HAL: a state machine tied to a data socket. Each
    section that holds the stream lock is one step; a write gives the lock up while it sends. */
module A2dpStream {

  datatype Phase = Starting | Started | Stopping | Stopped | Suspended | Standby

  datatype Command = StartCommand | StopCommand | SuspendCommand

  /** What a2dp_command reports. */
  datatype Ack = Success | Failure | InCallFailure

  datatype Event =
    | Sent(command: Command)
    | Opened
    | Shut
    | WasSuspended
    | Resumed
    | Closing

  /** `fd` is the data socket, -1 when disconnected; `writes` counts the writes that have
      given up the lock; `closed` is set once the stream is freed. */
  datatype Stream = Stream(phase: Phase, fd: int, writes: nat, closed: bool, log: seq<Event>)

  const DISCONNECTED := -1
  const NEW_STREAM := Stream(Stopped, DISCONNECTED, 0, false, [])

  /** A write may start the stream. */
  predicate Idle(s: Stream)
  {
    s.phase == Stopped || s.phase == Standby
  }

  /** A write leaves the phase alone. */
  predicate Held(s: Stream)
  {
    s.phase == Suspended || s.phase == Stopping
  }

  function Note(s: Stream, e: Event): Stream
  {
    s.(log := s.log + [e])
  }

  function Disconnected(s: Stream): Stream
  {
    if s.fd == DISCONNECTED then s else Note(s, Shut).(fd := DISCONNECTED)
  }

  /** start_audio_datapath; `fd` is what connecting the data socket would give. */
  function StartDatapath(s: Stream, ack: Ack, fd: int): Stream
  {
    var sent := Note(s, Sent(StartCommand));
    if ack != Success then sent
    else if s.fd != DISCONNECTED then sent.(phase := Started)
    else if fd < 0 then sent.(fd := fd)
    else Note(sent, Opened).(fd := fd, phase := Started)
  }

  function StopDatapath(s: Stream, ack: Ack): Stream
  {
    var sent := Note(s, Sent(StopCommand));
    if ack == Failure then sent else Disconnected(sent).(phase := Stopped)
  }

  function SuspendDatapath(s: Stream, standby: bool, ack: Ack): Stream
  {
    if s.phase == Stopping then s else
      var sent := Note(s, Sent(SuspendCommand));
      if ack == Failure then sent
      else if standby then Disconnected(sent).(phase := Standby)
      else Disconnected(Note(sent, WasSuspended)).(phase := Suspended)
  }

  /** out_write up to where it gives up the lock. */
  function WriteBegun(s: Stream, ack: Ack, fd: int): Stream
  {
    var s' := if Idle(s) then StartDatapath(s, ack, fd) else s;
    if s'.phase == Started then s'.(writes := s.writes + 1) else s'
  }

  /** out_write from where it takes the lock again. */
  function WriteEnded(s: Stream, failed: bool): Stream
    requires s.writes > 0
  {
    var s' := s.(writes := s.writes - 1);
    if !failed then s'
    else if Held(s) then Disconnected(s')
    else Disconnected(s').(phase := Stopped)
  }

  function StandBy(s: Stream, ack: Ack): Stream
  {
    if s.phase == Suspended then s else SuspendDatapath(s, true, ack)
  }

  predicate IsTrue(params: map<string, string>, key: string)
  {
    key in params && params[key] == "true"
  }

  function ParametersSet(s: Stream, params: map<string, string>, ack: Ack): Stream
  {
    if params == map[] then s else Told(s, IsTrue(params, "closing"), IsTrue(params, "A2dpSuspended"), ack)
  }

  function ClosingSet(s: Stream, closing: bool): Stream
  {
    if closing then Note(s, Closing).(phase := Stopping) else s
  }

  /** Any parameters without A2dpSuspended=true resume a suspended stream. */
  function Told(s: Stream, closing: bool, suspended: bool, ack: Ack): Stream
  {
    var s' := ClosingSet(s, closing);
    if suspended then
      if s'.phase == Started then SuspendDatapath(s', false, ack) else s'
    else if s'.phase == Suspended then Note(s', Resumed).(phase := Standby)
    else s'
  }

  /** adev_close_output_stream frees the stream whether or not it could stop it. */
  function Freed(s: Stream, ack: Ack): Stream
  {
    (if s.phase == Started || s.phase == Stopping then StopDatapath(s, ack) else s).(closed := true)
  }

  datatype Action =
    | BeginWrite(ack: Ack, fd: int)
    | EndWrite(failed: bool)
    | EnterStandby(ack: Ack)
    | SetParameters(params: map<string, string>, ack: Ack)
    | Close(ack: Ack)

  /** Connecting gives a descriptor or -1; a stream in use by a write is not freed, and a
      freed one is not used. */
  predicate Possible(s: Stream, a: Action)
  {
    && !s.closed
    && match a
       case BeginWrite(_, fd) => fd >= DISCONNECTED
       case EndWrite(_) => s.writes > 0
       case Close(_) => s.writes == 0
       case _ => true
  }

  function Next(s: Stream, a: Action): Stream
  {
    if !Possible(s, a) then s else
      match a
      case BeginWrite(ack, fd) => WriteBegun(s, ack, fd)
      case EndWrite(failed) => WriteEnded(s, failed)
      case EnterStandby(ack) => StandBy(s, ack)
      case SetParameters(params, ack) => ParametersSet(s, params, ack)
      case Close(ack) => Freed(s, ack)
  }

  function Run(actions: seq<Action>): Stream
  {
    if actions == [] then NEW_STREAM else
      var n := |actions| - 1;
      Next(Run(actions[..n]), actions[n])
  }

  // ----- What a log says

  /** Data sockets opened and not shut, whether the stream sleeps (suspended and not resumed
      since), whether it was closing, and whether every START was sent neither asleep nor
      closing. */
  datatype Digest = Digest(open: int, asleep: bool, closing: bool, orderly: bool)

  function Seen(d: Digest, e: Event): Digest
  {
    match e
    case Sent(command) => d.(orderly := d.orderly && (command == StartCommand ==> !d.asleep && !d.closing))
    case Opened => d.(open := d.open + 1)
    case Shut => d.(open := d.open - 1)
    case WasSuspended => d.(asleep := true)
    case Resumed => d.(asleep := false)
    case Closing => d.(closing := true)
  }

  function DigestOf(log: seq<Event>): Digest
  {
    if log == [] then Digest(0, false, false, true) else
      var n := |log| - 1;
      Seen(DigestOf(log[..n]), log[n])
  }

  /** All the steps need to know of DigestOf. */
  ghost predicate Digests(digest: seq<Event> -> Digest)
  {
    forall log: seq<Event>, e: Event :: digest(log + [e]) == Seen(digest(log), e)
  }

  lemma {:induction false} DigestGrows()
    ensures Digests(DigestOf)
  {
    forall log: seq<Event>, e: Event ensures DigestOf(log + [e]) == Seen(DigestOf(log), e) {
      assert (log + [e])[..|log|] == log;
    }
  }

  // ----- What every step keeps

  /** The socket follows the phase. */
  predicate SocketFits(s: Stream, open: int)
  {
    && s.phase != Starting && s.fd >= DISCONNECTED
    && (s.phase == Started ==> s.fd != DISCONNECTED)
    && (Idle(s) || s.phase == Suspended ==> s.fd == DISCONNECTED)
    && open == if s.fd == DISCONNECTED then 0 else 1
  }

  /** The phase remembers what the log says. */
  predicate PhaseFits(s: Stream, d: Digest)
  {
    && d.orderly
    && (d.closing && !s.closed ==> s.phase == Stopping)
    && (d.asleep && !s.closed ==> Held(s))
  }

  predicate Fits(s: Stream, d: Digest)
  {
    SocketFits(s, d.open) && PhaseFits(s, d)
  }

  lemma {:induction false} WriteFits(digest: seq<Event> -> Digest, s: Stream, a: Action)
    requires Digests(digest) && Fits(s, digest(s.log)) && (a.BeginWrite? || a.EndWrite?)
    ensures Fits(Next(s, a), digest(Next(s, a).log))
  {
  }

  lemma {:induction false} SuspendFits(digest: seq<Event> -> Digest, s: Stream, standby: bool, ack: Ack)
    requires Digests(digest) && Fits(s, digest(s.log)) && !s.closed && (standby ==> s.phase != Suspended)
    ensures var s' := SuspendDatapath(s, standby, ack); Fits(s', digest(s'.log))
  {
  }

  lemma {:induction false} ToldFits(digest: seq<Event> -> Digest, s: Stream, closing: bool, suspended: bool, ack: Ack)
    requires Digests(digest) && Fits(s, digest(s.log)) && !s.closed
    ensures var s' := Told(s, closing, suspended, ack); Fits(s', digest(s'.log))
  {
    var s' := ClosingSet(s, closing);
    ClosingFits(digest, s, closing);
    if suspended {
      if s'.phase == Started { SuspendFits(digest, s', false, ack); }
    } else if s'.phase == Suspended {
      ResumedFits(digest, s');
    }
  }

  lemma {:induction false} ClosingFits(digest: seq<Event> -> Digest, s: Stream, closing: bool)
    requires Digests(digest) && Fits(s, digest(s.log)) && !s.closed
    ensures var s' := ClosingSet(s, closing); !s'.closed && Fits(s', digest(s'.log))
  {
  }

  lemma {:induction false} ResumedFits(digest: seq<Event> -> Digest, s: Stream)
    requires Digests(digest) && Fits(s, digest(s.log)) && !s.closed && s.phase == Suspended
    ensures var s' := Note(s, Resumed).(phase := Standby); Fits(s', digest(s'.log))
  {
  }

  lemma {:induction false} FreedFits(digest: seq<Event> -> Digest, s: Stream, ack: Ack)
    requires Digests(digest) && Fits(s, digest(s.log))
    ensures var s' := Freed(s, ack); Fits(s', digest(s'.log))
  {
  }

  lemma {:induction false} NextFits(digest: seq<Event> -> Digest, s: Stream, a: Action)
    requires Digests(digest) && Fits(s, digest(s.log))
    ensures Fits(Next(s, a), digest(Next(s, a).log))
  {
    if Possible(s, a) {
      match a
      case BeginWrite(_, _) => WriteFits(digest, s, a);
      case EndWrite(_) => WriteFits(digest, s, a);
      case EnterStandby(ack) => if s.phase != Suspended { SuspendFits(digest, s, true, ack); }
      case SetParameters(params, ack) =>
        ToldFits(digest, s, IsTrue(params, "closing"), IsTrue(params, "A2dpSuspended"), ack);
      case Close(ack) => FreedFits(digest, s, ack);
    }
  }

  lemma {:induction false} RunFits(actions: seq<Action>)
    ensures Fits(Run(actions), DigestOf(Run(actions).log))
  {
    if actions != [] {
      var n := |actions| - 1;
      RunFits(actions[..n]);
      DigestGrows();
      NextFits(DigestOf, Run(actions[..n]), actions[n]);
    }
  }

  // ----- The theorems, for every run

  /** Whenever the lock is free: STARTED has the data socket open, SUSPENDED, STANDBY and
      STOPPED have it closed, no socket is shut twice and at most one is open. */
  lemma {:induction false} RunConsistent(actions: seq<Action>)
    ensures SocketFits(Run(actions), DigestOf(Run(actions).log).open)
  {
    RunFits(actions);
  }

  /** Freeing a stream leaves its data socket open exactly when there is one and the stack
      refuses to stop. */
  lemma {:induction false} FreedLeavesSocket(actions: seq<Action>, ack: Ack)
    ensures var s := Run(actions); var s' := Freed(s, ack);
            s'.fd != DISCONNECTED <==> s.fd != DISCONNECTED && ack == Failure
  {
    RunConsistent(actions);
  }

  /** A stream that was started, finished a write and could not be stopped is freed with its
      data socket open. */
  lemma {:induction false} SocketLeftOpen(fd: nat)
    ensures var s := Run([BeginWrite(Success, fd), EndWrite(false), Close(Failure)]);
            s.closed && s.fd == fd && DigestOf(s.log).open == 1
  {
    var actions := [BeginWrite(Success, fd), EndWrite(false), Close(Failure)];
    RunConsistent(actions);
    assert actions[..2] == [actions[0], actions[1]] && actions[..2][..1] == [actions[0]];
    assert actions[..2][..1][..0] == [];
    var s1 := Next(NEW_STREAM, actions[0]);
    assert Run(actions[..2][..1]) == s1 && Run(actions[..2]) == Next(s1, actions[1]);
  }

  lemma {:induction false} StartedAwake(log: seq<Event>, j: nat)
    requires DigestOf(log).orderly && j < |log| && log[j] == Sent(StartCommand)
    ensures !DigestOf(log[..j]).asleep && !DigestOf(log[..j]).closing
  {
    OrderlyUpTo(log, j + 1);
    assert log[..j + 1][..j] == log[..j];
  }

  lemma {:induction false} OrderlyUpTo(log: seq<Event>, j: nat)
    requires DigestOf(log).orderly && j <= |log|
    ensures DigestOf(log[..j]).orderly
  {
    if j == |log| {
      assert log[..j] == log;
    } else {
      var n := |log| - 1;
      OrderlyUpTo(log[..n], j);
      assert log[..n][..j] == log[..j];
    }
  }

  lemma {:induction false} ClosingIsSeen(log: seq<Event>, i: nat)
    requires i < |log| && log[i] == Closing
    ensures DigestOf(log).closing
  {
    var n := |log| - 1;
    if i < n { ClosingIsSeen(log[..n], i); }
  }

  /** After closing=true no START is sent, even when a write fails while unlocked. */
  lemma {:induction false} NoStartAfterClosing(actions: seq<Action>, i: nat, j: nat)
    requires i < j < |Run(actions).log| && Run(actions).log[i] == Closing
    ensures Run(actions).log[j] != Sent(StartCommand)
  {
    var log := Run(actions).log;
    RunFits(actions);
    ClosingIsSeen(log[..j], i);
    if log[j] == Sent(StartCommand) { StartedAwake(log, j); }
  }

  lemma {:induction false} WokenBetween(past: seq<Event>, i: nat) returns (k: nat)
    requires i < |past| && past[i] == WasSuspended && !DigestOf(past).asleep
    ensures i < k < |past| && past[k] == Resumed
  {
    var n := |past| - 1;
    if past[n] == Resumed {
      k := n;
    } else {
      k := WokenBetween(past[..n], i);
    }
  }

  /** After a suspension no START is sent until a set_parameters call resumes the stream. */
  lemma {:induction false} NoStartWhileSuspended(actions: seq<Action>, i: nat, j: nat) returns (k: nat)
    requires i < j < |Run(actions).log|
    requires Run(actions).log[i] == WasSuspended && Run(actions).log[j] == Sent(StartCommand)
    ensures i < k < j && Run(actions).log[k] == Resumed
  {
    var log := Run(actions).log;
    RunFits(actions);
    StartedAwake(log, j);
    k := WokenBetween(log[..j], i);
  }

  // ----- The same in terms of the calls

  function RunFrom(s: Stream, actions: seq<Action>): Stream
    decreases |actions|
  {
    if actions == [] then s else RunFrom(Next(s, actions[0]), actions[1..])
  }

  /** No START is sent from s to s'. */
  predicate NoStart(s: Stream, s': Stream)
  {
    s.log <= s'.log && forall j | |s.log| <= j < |s'.log| :: s'.log[j] != Sent(StartCommand)
  }

  lemma {:induction false} NoStartThen(s: Stream, s1: Stream, s2: Stream)
    requires NoStart(s, s1) && NoStart(s1, s2)
    ensures NoStart(s, s2)
  {
    forall j | |s.log| <= j < |s2.log| ensures s2.log[j] != Sent(StartCommand) {
      if j < |s1.log| { assert s2.log[j] == s1.log[j]; }
    }
  }

  lemma {:induction false} StoppingStays(s: Stream, a: Action)
    requires s.phase == Stopping || s.closed
    ensures var s' := Next(s, a); (s'.phase == Stopping || s'.closed) && NoStart(s, s')
  {
  }

  lemma {:induction false} NoStartFromStopping(s: Stream, actions: seq<Action>)
    requires s.phase == Stopping || s.closed
    ensures NoStart(s, RunFrom(s, actions))
    decreases |actions|
  {
    if actions != [] {
      StoppingStays(s, actions[0]);
      NoStartFromStopping(Next(s, actions[0]), actions[1..]);
      NoStartThen(s, Next(s, actions[0]), RunFrom(s, actions));
    }
  }

  /** Once parameters with closing=true have been set, whatever else they hold and whatever the
      stream was doing, neither that call nor anything after it sends START. */
  lemma {:induction false} ClosingSilences(s: Stream, params: map<string, string>, ack: Ack, actions: seq<Action>)
    requires Possible(s, SetParameters(params, ack)) && "closing" in params && params["closing"] == "true"
    ensures NoStart(s, RunFrom(s, [SetParameters(params, ack)] + actions))
  {
    var call := SetParameters(params, ack);
    assert params != map[] && IsTrue(params, "closing");
    assert ([call] + actions)[1..] == actions;
    NoStartFromStopping(Next(s, call), actions);
    NoStartThen(s, Next(s, call), RunFrom(Next(s, call), actions));
  }

  /** Does the call leave a suspended stream suspended? */
  predicate KeepsSuspended(a: Action)
  {
    a.SetParameters? ==> a.params == map[] || ("A2dpSuspended" in a.params && a.params["A2dpSuspended"] == "true")
  }

  lemma {:induction false} SuspendedStays(s: Stream, a: Action)
    requires (Held(s) || s.closed) && KeepsSuspended(a)
    ensures var s' := Next(s, a); (Held(s') || s'.closed) && NoStart(s, s')
  {
  }

  lemma {:induction false} NoStartFromSuspended(s: Stream, actions: seq<Action>)
    requires (Held(s) || s.closed) && forall i | 0 <= i < |actions| :: KeepsSuspended(actions[i])
    ensures NoStart(s, RunFrom(s, actions))
    decreases |actions|
  {
    if actions != [] {
      assert KeepsSuspended(actions[0]);
      SuspendedStays(s, actions[0]);
      NoStartFromSuspended(Next(s, actions[0]), actions[1..]);
      NoStartThen(s, Next(s, actions[0]), RunFrom(s, actions));
    }
  }

  /** Once A2dpSuspended=true has suspended a started stream, no START is sent until parameters
      without it are set. */
  lemma {:induction false} SuspendSilences(s: Stream, params: map<string, string>, ack: Ack, actions: seq<Action>)
    requires Possible(s, SetParameters(params, ack)) && s.phase == Started && ack != Failure
    requires "A2dpSuspended" in params && params["A2dpSuspended"] == "true"
    requires forall i | 0 <= i < |actions| :: KeepsSuspended(actions[i])
    ensures NoStart(s, RunFrom(s, [SetParameters(params, ack)] + actions))
  {
    var call := SetParameters(params, ack);
    assert params != map[] && "A2dpSuspended" in params;
    assert ([call] + actions)[1..] == actions;
    assert Held(Next(s, call)) && NoStart(s, Next(s, call));
    NoStartFromSuspended(Next(s, call), actions);
    NoStartThen(s, Next(s, call), RunFrom(Next(s, call), actions));
  }

  const RESUME: map<string, string> := map["A2dpSuspended" := "false"]

  /** Parameters are set without suspending, the stream stands by, and a write begins. */
  function Restart(fd: nat): seq<Action>
  {
    [SetParameters(RESUME, Success), EnterStandby(Success), BeginWrite(Success, fd)]
  }

  lemma {:induction false} RestartSteps(s: Stream, fd: nat)
    ensures RunFrom(s, Restart(fd)) ==
            Next(Next(Next(s, SetParameters(RESUME, Success)), EnterStandby(Success)), BeginWrite(Success, fd))
  {
    RunThree(s, SetParameters(RESUME, Success), EnterStandby(Success), BeginWrite(Success, fd));
  }

  lemma {:induction false} RunThree(s: Stream, a: Action, b: Action, c: Action)
    ensures RunFrom(s, [a, b, c]) == Next(Next(Next(s, a), b), c)
  {
    assert [a, b, c][1..] == [b, c] && [b, c][1..] == [c] && [c][1..] == [];
    assert RunFrom(Next(s, a), [b, c]) == RunFrom(Next(Next(s, a), b), [c]);
  }

  lemma {:induction false} Resumes(s: Stream)
    requires !s.closed && s.phase != Stopping && s.phase != Starting
    ensures var s' := Next(s, SetParameters(RESUME, Success));
            s' == if s.phase == Suspended then Note(s, Resumed).(phase := Standby) else s
  {
    assert "A2dpSuspended" in RESUME && RESUME["A2dpSuspended"] == "false" && "closing" !in RESUME;
    assert RESUME["A2dpSuspended"][0] != "true"[0];
  }

  /** In every run, a stream that is open can be started again if and only if it is not stopping:
      suspension and standby can be left, closing cannot. */
  lemma {:induction false} StartsUnlessStopping(run: seq<Action>)
    requires !Run(run).closed
    ensures (exists actions :: !NoStart(Run(run), RunFrom(Run(run), actions))) <==> Run(run).phase != Stopping
  {
    var s := Run(run);
    RunFits(run);
    if s.phase == Stopping {
      forall actions ensures NoStart(s, RunFrom(s, actions)) { NoStartFromStopping(s, actions); }
    } else {
      RestartSteps(s, 0);
      Resumes(s);
      RestartSends(s);
    }
  }

  lemma {:induction false} RestartSends(s: Stream)
    requires !s.closed && s.phase != Stopping && s.phase != Starting
    requires var r := if s.phase == Suspended then Note(s, Resumed).(phase := Standby) else s;
             RunFrom(s, Restart(0)) == Next(Next(r, EnterStandby(Success)), BeginWrite(Success, 0))
    ensures !NoStart(s, RunFrom(s, Restart(0))) && RunFrom(s, Restart(0)).phase == Started
  {
    var r := if s.phase == Suspended then Note(s, Resumed).(phase := Standby) else s;
    var standing := Next(r, EnterStandby(Success));
    assert standing.phase == Standby;
    var started := Next(standing, BeginWrite(Success, 0));
    assert started.log[|standing.log|] == Sent(StartCommand) && |standing.log| >= |s.log|;
  }

  // ----- What each call does to an open stream

  /** A write starts an idle stream if the stack and the socket let it; it goes on to send exactly
      when the stream is started then.  It starts nothing else. */
  lemma {:induction false} WriteBegins(run: seq<Action>, ack: Ack, fd: int)
    requires !Run(run).closed && fd >= DISCONNECTED
    ensures var s := Run(run); var s' := Next(s, BeginWrite(ack, fd)); var starts := ack == Success && fd >= 0;
            var idle := s.phase == Stopped || s.phase == Standby;
            var held := s.phase == Suspended || s.phase == Stopping;
            && (idle && starts ==> s' == s.(phase := Started, fd := fd, writes := s.writes + 1,
                                               log := s.log + [Sent(StartCommand), Opened]))
            && (idle && !starts ==> s' == s.(log := s.log + [Sent(StartCommand)]))
            && (s.phase == Started ==> s' == s.(writes := s.writes + 1))
            && (held ==> s' == s)
  {
    RunFits(run);
  }

  /** A failed send closes the socket and stops the stream unless it is held; a successful one
      changes nothing. */
  lemma {:induction false} WriteEnds(run: seq<Action>, failed: bool)
    requires !Run(run).closed && Run(run).writes > 0
    ensures var s := Run(run); var s' := Next(s, EndWrite(failed));
            var held := s.phase == Suspended || s.phase == Stopping;
            && s'.writes == s.writes - 1
            && (!failed ==> s'.phase == s.phase && s'.fd == s.fd && s'.log == s.log)
            && (failed ==> s'.fd == DISCONNECTED && s'.phase == if held then s.phase else Stopped)
  {
  }

  /** Standing by releases the socket of any stream that is not held, if the stack agrees. */
  lemma {:induction false} StandbyReleases(run: seq<Action>, ack: Ack)
    requires !Run(run).closed
    ensures var s := Run(run); var s' := Next(s, EnterStandby(ack));
            var held := s.phase == Suspended || s.phase == Stopping;
            && (held ==> s' == s)
            && (!held && ack == Failure ==> s' == s.(log := s.log + [Sent(SuspendCommand)]))
            && (!held && ack != Failure ==>
                  && s'.phase == Standby && s'.fd == DISCONNECTED && s'.writes == s.writes
                  && s.log + [Sent(SuspendCommand)] <= s'.log)
  {
  }

  /** Parameters close, suspend or resume: closing stops any stream, A2dpSuspended=true suspends a
      started one if the stack agrees, and anything else resumes a suspended one. */
  lemma {:induction false} ParametersTell(run: seq<Action>, params: map<string, string>, ack: Ack)
    requires !Run(run).closed
    ensures var s := Run(run); var s' := Next(s, SetParameters(params, ack));
            var closing := "closing" in params && params["closing"] == "true";
            var suspend := "A2dpSuspended" in params && params["A2dpSuspended"] == "true";
            && (params == map[] ==> s' == s)
            && (closing ==> s'.phase == Stopping && s'.fd == s.fd)
            && (!closing && suspend && s.phase == Started ==>
                  if ack == Failure then s'.phase == Started && s'.fd == s.fd
                  else s'.phase == Suspended && s'.fd == DISCONNECTED)
            && (!closing && suspend && s.phase != Started ==> s' == s)
            && (!closing && !suspend && params != map[] ==>
                  s'.phase == (if s.phase == Suspended then Standby else s.phase) && s'.fd == s.fd)
            && s'.writes == s.writes && !s'.closed
  {
    if IsTrue(params, "closing") { assert "closing" in params; }
    if IsTrue(params, "A2dpSuspended") { assert "A2dpSuspended" in params; }
  }
}
