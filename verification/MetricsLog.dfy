/** BluetoothMetricsLogger on values: the bounded log, and the unbounded history it reports. */
module MetricsLog {
  import opened Options
  import opened LeakyQueues
  import opened MachineInts
  import M = A2dpMetrics

  const MAX_SESSIONS: nat := 50
  const MAX_PAIR_EVENTS: nat := 50
  const MAX_WAKE_EVENTS: nat := 1000
  const MAX_SCAN_EVENTS: nat := 50
  const COD_MAJOR_AUDIO := 0x04
  const HSP_SERVICE_ID := 5
  const HFP_SERVICE_ID := 6

  datatype DeviceType = UnknownDevice | BrEdrDevice | LeDevice | DualDevice
  datatype Technology = UnknownTechnology | LeTechnology | BrEdrTechnology
  datatype WakeType = UnknownWake | Acquired | Released
  datatype ScanTechnology = UnknownScan | LeScan | BrEdrScan | BothScans
  datatype Reason = UnknownReason | MetricsDump | NextStartWithoutEndPrevious
  datatype Codec = UnknownCodec | Sbc | Aac | AptX | AptXHd | Ldac

  datatype DeviceInfo = DeviceInfo(deviceClass: int, deviceType: DeviceType)
  datatype PairEvent = PairEvent(device: DeviceInfo, reason: int, time: nat)
  datatype WakeEvent = WakeEvent(kind: WakeType, requestor: string, name: string, time: nat)
  datatype ScanEvent = ScanEvent(start: bool, initiator: string, technology: ScanTechnology, results: nat, time: nat)

  /** What a session's audio part shows: the metrics without the scheduling count. */
  datatype A2dpSession = A2dpSession(
    audioDuration: int, timerMin: int, timerMax: int, timerAvg: int, overrunsMax: int, overrunsTotal: int,
    underrunsAvg: real, underrunsCount: int, codec: Codec, offload: bool)

  datatype Session = Session(
    technology: Technology, device: Option<DeviceInfo>, a2dp: Option<A2dpSession>,
    duration: Option<int>, reason: Option<Reason>)

  datatype Log = Log(
    sessions: seq<Session>, pairs: seq<PairEvent>, wakes: seq<WakeEvent>, scans: seq<ScanEvent>,
    numSessions: nat, numPairs: nat, numWakes: nat, numScans: nat, headsetStats: seq<(nat, nat)>)

  const EMPTY_LOG := Log([], [], [], [], 0, 0, 0, 0, [])

  datatype Logger = Logger(
    sessionQueue: seq<Session>, pairQueue: seq<PairEvent>, wakeQueue: seq<WakeEvent>, scanQueue: seq<ScanEvent>,
    session: Option<Session>, start: nat, metrics: M.Metrics, headsetCounts: seq<nat>, log: Log)

  const NEW_LOGGER := Logger([], [], [], [], None, 0, M.UNSET, [0, 0, 0], EMPTY_LOG)

  function SourceCodec(index: int): Codec
  {
    if index == 0 then Sbc
    else if index == 1 then Aac
    else if index == 2 then AptX
    else if index == 3 then AptXHd
    else if index == 4 then Ldac
    else UnknownCodec
  }

  function ShownMetrics(m: M.Metrics): A2dpSession
  {
    A2dpSession(m.audioDuration, m.timerMin, m.timerMax, m.timerAvg, m.overrunsMax, m.overrunsTotal,
                m.underrunsAvg, m.underrunsCount, SourceCodec(m.codecIndex), m.offload)
  }

  function ProfileOf(service: int): (profile: nat)
    ensures profile < 3
  {
    if service == HSP_SERVICE_ID then 1 else if service == HFP_SERVICE_ID then 2 else 0
  }

  // ----- The operations

  function PairLogged(s: Logger, e: PairEvent): Logger
  {
    s.(pairQueue := Last(s.pairQueue + [e], MAX_PAIR_EVENTS), log := s.log.(numPairs := s.log.numPairs + 1))
  }

  function WakeLogged(s: Logger, e: WakeEvent): Logger
  {
    s.(wakeQueue := Last(s.wakeQueue + [e], MAX_WAKE_EVENTS), log := s.log.(numWakes := s.log.numWakes + 1))
  }

  function ScanLogged(s: Logger, e: ScanEvent): Logger
  {
    s.(scanQueue := Last(s.scanQueue + [e], MAX_SCAN_EVENTS), log := s.log.(numScans := s.log.numScans + 1))
  }

  /** A zero timestamp asks for the clock. */
  function TimeOf(timestamp: nat, clock: nat): nat
  {
    if timestamp == 0 then clock else timestamp
  }

  /** Whole seconds between two uint64_t millisecond times. */
  function Seconds(from: nat, to: nat): int
  {
    U64(to - from) / 1000
  }

  function SessionEnded(s: Logger, reason: Reason, timestamp: nat, clock: nat): Logger
  {
    if s.session.None? then s else
      var done := s.session.value.(
        duration := Some(Seconds(s.start, TimeOf(timestamp, clock))), reason := Some(reason));
      s.(sessionQueue := Last(s.sessionQueue + [done], MAX_SESSIONS), session := None, metrics := M.UNSET,
         log := s.log.(numSessions := s.log.numSessions + 1))
  }

  function SessionStarted(s: Logger, technology: Technology, timestamp: nat, clock: nat, clock': nat): Logger
  {
    SessionEnded(s, NextStartWithoutEndPrevious, 0, clock).(
      session := Some(Session(technology, None, None, None, None)), start := TimeOf(timestamp, clock'))
  }

  /** The session's device type is always BR/EDR, whatever the caller passed. */
  function DeviceLogged(s: Logger, deviceClass: int, clock: nat): Logger
  {
    var s' := if s.session.None? then SessionStarted(s, UnknownTechnology, 0, clock, clock) else s;
    s'.(session := Some(s'.session.value.(device := Some(DeviceInfo(deviceClass, BrEdrDevice)))))
  }

  /** The session that audio reports go to: one is created on the system's behalf. */
  function AudioSession(s: Logger, clock: nat): (s': Logger)
    ensures s'.session.Some?
  {
    if s.session.None? then DeviceLogged(SessionStarted(s, BrEdrTechnology, 0, clock, clock), COD_MAJOR_AUDIO, clock)
    else s
  }

  function MetricsShown(s: Logger, m: M.Metrics): Logger
    requires s.session.Some?
  {
    s.(metrics := m, session := Some(s.session.value.(a2dp := Some(ShownMetrics(m)))))
  }

  function A2dpLogged(s: Logger, x: M.Metrics, clock: nat): Logger
  {
    var s' := AudioSession(s, clock);
    MetricsShown(s', M.Updated(s'.metrics, x))
  }

  function HeadsetLogged(s: Logger, service: int): Logger
    requires |s.headsetCounts| == 3
  {
    var p := ProfileOf(service);
    s.(headsetCounts := s.headsetCounts[p := s.headsetCounts[p] + 1])
  }

  /** Ends the live session and goes on with a copy that has no audio part. */
  function CutOff(s: Logger, clock: nat, clock': nat): Logger
  {
    if s.session.None? then s else
      SessionEnded(s, MetricsDump, 0, clock).(
        session := Some(s.session.value.(a2dp := None)), start := clock', metrics := M.UNSET)
  }

  /** How many items a drain loop moves: it stops at an empty queue or past the capacity. */
  function Moved(queued: nat, listed: nat, capacity: nat): nat
  {
    if listed > capacity then 0 else if queued <= capacity + 1 - listed then queued else capacity + 1 - listed
  }

  function Drained(s: Logger): Logger
  {
    var a := Moved(|s.sessionQueue|, |s.log.sessions|, MAX_SESSIONS);
    var b := Moved(|s.pairQueue|, |s.log.pairs|, MAX_PAIR_EVENTS);
    var c := Moved(|s.scanQueue|, |s.log.scans|, MAX_SCAN_EVENTS);
    var d := Moved(|s.wakeQueue|, |s.log.wakes|, MAX_WAKE_EVENTS);
    s.(sessionQueue := s.sessionQueue[a..], pairQueue := s.pairQueue[b..],
       scanQueue := s.scanQueue[c..], wakeQueue := s.wakeQueue[d..],
       log := s.log.(sessions := s.log.sessions + s.sessionQueue[..a], pairs := s.log.pairs + s.pairQueue[..b],
                     scans := s.log.scans + s.scanQueue[..c], wakes := s.log.wakes + s.wakeQueue[..d]))
  }

  /** Popping the empty wake queue is undefined; the last loop does so when its session-queue
      test passes and there are too few wake events to stop it. */
  predicate LastLoopDefined(s: Logger)
  {
    s.sessionQueue != [] ==> |s.wakeQueue| + |s.log.wakes| > MAX_WAKE_EVENTS
  }

  /** The last drain loop tests the session queue and pops the wake queue. */
  function DrainedAgain(s: Logger): Logger
    requires LastLoopDefined(s)
  {
    if s.sessionQueue == [] then s else
      var d := Moved(|s.wakeQueue|, |s.log.wakes|, MAX_WAKE_EVENTS);
      s.(wakeQueue := s.wakeQueue[d..], log := s.log.(wakes := s.log.wakes + s.wakeQueue[..d]))
  }

  /** The statistics of the first n profiles that connected at all. */
  function Stats(counts: seq<nat>, n: nat): seq<(nat, nat)>
    requires n <= |counts|
  {
    if n == 0 then [] else Stats(counts, n - 1) + if counts[n - 1] > 0 then [(n - 1, counts[n - 1])] else []
  }

  function HeadsetsListed(s: Logger): Logger
    requires |s.headsetCounts| == 3
  {
    var stats := Stats(s.headsetCounts, |s.headsetCounts|);
    s.(log := s.log.(headsetStats := s.log.headsetStats + stats), headsetCounts := [0, 0, 0])
  }

  function Built(s: Logger, clock: nat, clock': nat): Logger
    requires |s.headsetCounts| == 3 && LastLoopDefined(Drained(CutOff(s, clock, clock')))
  {
    HeadsetsListed(DrainedAgain(Drained(CutOff(s, clock, clock'))))
  }

  /** Reset leaves the headset counts alone. */
  function WasReset(s: Logger): Logger
  {
    NEW_LOGGER.(headsetCounts := s.headsetCounts)
  }

  // ----- Runs

  datatype Call =
    | LogPair(pair: PairEvent)
    | LogWake(wake: WakeEvent)
    | LogScan(scan: ScanEvent)
    | Start(technology: Technology, timestamp: nat, clock: nat, clock': nat)
    | End(reason: Reason, timestamp: nat, clock: nat)
    | Device(deviceClass: int, clock: nat)
    | A2dp(metrics: M.Metrics, clock: nat)
    | Headset(service: int)
    | Dump(clock: nat, clock': nat)
    | Reset

  /** Every list that is empty between dumps, and every queue within its bound. */
  predicate Bounded(s: Logger)
  {
    && |s.sessionQueue| <= MAX_SESSIONS && |s.pairQueue| <= MAX_PAIR_EVENTS
    && |s.wakeQueue| <= MAX_WAKE_EVENTS && |s.scanQueue| <= MAX_SCAN_EVENTS
    && s.log.sessions == [] && s.log.pairs == [] && s.log.wakes == [] && s.log.scans == []
    && s.log.headsetStats == [] && |s.headsetCounts| == 3
  }

  /** Between dumps the drain loops empty every queue, so the guard of the last one is false. */
  lemma {:induction false} DrainsEverything(s: Logger)
    requires Bounded(s)
    ensures var d := Drained(s);
            && d.sessionQueue == [] && d.pairQueue == [] && d.wakeQueue == [] && d.scanQueue == []
            && d.log == s.log.(sessions := s.sessionQueue, pairs := s.pairQueue,
                               wakes := s.wakeQueue, scans := s.scanQueue)
            && LastLoopDefined(d) && DrainedAgain(d) == d
  {
    var d := Drained(s);
    assert d.log.sessions == s.sessionQueue && d.log.pairs == s.pairQueue;
    assert d.log.wakes == s.wakeQueue && d.log.scans == s.scanQueue;
  }

  /** All queues moved to the log, and the headset counts listed. */
  function Emitted(s: Logger): Logger
    requires |s.headsetCounts| == 3
  {
    s.(sessionQueue := [], pairQueue := [], wakeQueue := [], scanQueue := [], headsetCounts := [0, 0, 0],
       log := Log(s.sessionQueue, s.pairQueue, s.wakeQueue, s.scanQueue, s.log.numSessions, s.log.numPairs,
                  s.log.numWakes, s.log.numScans, Stats(s.headsetCounts, |s.headsetCounts|)))
  }

  lemma {:induction false} LoopsEmit(s: Logger)
    requires Bounded(s)
    ensures LastLoopDefined(Drained(s)) && HeadsetsListed(DrainedAgain(Drained(s))) == Emitted(s)
  {
    DrainsEverything(s);
    assert [] + Stats(s.headsetCounts, |s.headsetCounts|) == Stats(s.headsetCounts, |s.headsetCounts|);
  }

  /** Between dumps, Build moves everything there is to the log. */
  lemma {:induction false} BuildEmits(s: Logger, clock: nat, clock': nat)
    requires Bounded(s)
    ensures LastLoopDefined(Drained(CutOff(s, clock, clock')))
    ensures Built(s, clock, clock') == Emitted(CutOff(s, clock, clock'))
  {
    LoopsEmit(CutOff(s, clock, clock'));
  }

  /** What WriteString hands out. */
  function Written(s: Logger, clock: nat, clock': nat): Log
    requires Bounded(s)
  {
    Emitted(CutOff(s, clock, clock')).log
  }

  /** What WriteString leaves. */
  function Dumped(s: Logger, clock: nat, clock': nat): (s': Logger)
    requires Bounded(s)
    ensures Bounded(s')
  {
    Emitted(CutOff(s, clock, clock')).(log := EMPTY_LOG)
  }

  function Next(s: Logger, call: Call): (s': Logger)
    requires Bounded(s)
    ensures Bounded(s')
  {
    match call
    case LogPair(e) => PairLogged(s, e)
    case LogWake(e) => WakeLogged(s, e)
    case LogScan(e) => ScanLogged(s, e)
    case Start(technology, timestamp, t, t') => SessionStarted(s, technology, timestamp, t, t')
    case End(reason, timestamp, t) => SessionEnded(s, reason, timestamp, t)
    case Device(deviceClass, t) => DeviceLogged(s, deviceClass, t)
    case A2dp(x, t) => A2dpLogged(s, x, t)
    case Headset(service) => HeadsetLogged(s, service)
    case Dump(t, t') => Dumped(s, t, t')
    case Reset => WasReset(s)
  }

  function Run(calls: seq<Call>): (s: Logger)
    ensures Bounded(s)
  {
    if calls == [] then NEW_LOGGER else
      var n := |calls| - 1;
      Next(Run(calls[..n]), calls[n])
  }

  // ----- The history a log reports

  /** A session as it happened: the raw reports instead of running totals. */
  datatype Life = Life(technology: Technology, device: Option<DeviceInfo>, start: nat, reports: seq<M.Metrics>)

  datatype Finished = Finished(life: Life, end: nat, reason: Reason)

  /** Everything since the last dump, and the session going on. */
  datatype History = History(
    life: Option<Life>, ended: seq<Finished>, pairs: seq<PairEvent>, wakes: seq<WakeEvent>, scans: seq<ScanEvent>,
    services: seq<int>)

  const NO_HISTORY := History(None, [], [], [], [], [])

  /** The session a call ends, if it ends one. */
  function Ending(life: Option<Life>, call: Call): seq<Finished>
  {
    if life.None? then [] else
      match call
      case Start(_, _, t, _) => [Finished(life.value, t, NextStartWithoutEndPrevious)]
      case End(reason, timestamp, t) => [Finished(life.value, if timestamp == 0 then t else timestamp, reason)]
      case Dump(t, _) => [Finished(life.value, t, MetricsDump)]
      case _ => []
  }

  /** The session going on after a call. */
  function Continuing(life: Option<Life>, call: Call): Option<Life>
  {
    match call
    case Start(technology, timestamp, _, t') =>
      Some(Life(technology, None, if timestamp == 0 then t' else timestamp, []))
    case End(_, _, _) => None
    case Device(deviceClass, t) =>
      var l := if life.Some? then life.value else Life(UnknownTechnology, None, t, []);
      Some(l.(device := Some(DeviceInfo(deviceClass, BrEdrDevice))))
    case A2dp(x, t) =>
      var l := if life.Some? then life.value
               else Life(BrEdrTechnology, Some(DeviceInfo(COD_MAJOR_AUDIO, BrEdrDevice)), t, []);
      Some(l.(reports := l.reports + [x]))
    case Dump(_, t') => if life.Some? then Some(life.value.(start := t', reports := [])) else None
    case Reset => None
    case _ => life
  }

  function Recorded(h: History, call: Call): History
  {
    match call
    case LogPair(e) => h.(pairs := h.pairs + [e])
    case LogWake(e) => h.(wakes := h.wakes + [e])
    case LogScan(e) => h.(scans := h.scans + [e])
    case Headset(service) => h.(services := h.services + [service])
    case Dump(_, _) => NO_HISTORY.(life := Continuing(h.life, call))
    case Reset => NO_HISTORY.(services := h.services)
    case _ => h.(life := Continuing(h.life, call), ended := h.ended + Ending(h.life, call))
  }

  function Past(calls: seq<Call>): History
  {
    if calls == [] then NO_HISTORY else
      var n := |calls| - 1;
      Recorded(Past(calls[..n]), calls[n])
  }

  /** How the reports of a session are summed up. */
  type Summing = seq<M.Metrics> -> M.Metrics

  /** A session object made from the whole session. */
  function Shown(sum: Summing, l: Life): Session
  {
    var a2dp := if l.reports == [] then None else Some(ShownMetrics(sum(l.reports)));
    Session(l.technology, l.device, a2dp, None, None)
  }

  function ShownFinished(sum: Summing, f: Finished): Session
  {
    Shown(sum, f.life).(duration := Some(Seconds(f.life.start, f.end)), reason := Some(f.reason))
  }

  function ShownAll(sum: Summing, ended: seq<Finished>): (r: seq<Session>)
    ensures |r| == |ended|
  {
    if ended == [] then [] else
      var n := |ended| - 1;
      ShownAll(sum, ended[..n]) + [ShownFinished(sum, ended[n])]
  }

  /** Profile 1 is the headset profile, 2 the hands-free one, and 0 any other. */
  predicate Serves(service: int, profile: nat)
  {
    match profile
    case 0 => service != 5 && service != 6
    case 1 => service == 5
    case 2 => service == 6
    case _ => false
  }

  function Connections(services: seq<int>, profile: nat): nat
  {
    if services == [] then 0 else
      var n := |services| - 1;
      Connections(services[..n], profile) + if Serves(services[n], profile) then 1 else 0
  }

  function Counts(services: seq<int>): seq<nat>
  {
    [Connections(services, 0), Connections(services, 1), Connections(services, 2)]
  }

  function Reports(life: Option<Life>): seq<M.Metrics>
  {
    if life.Some? then life.value.reports else []
  }

  /** The history with its live session split in two by a dump. */
  function WithCutOff(h: History, clock: nat, clock': nat): History
  {
    var dump := Dump(clock, clock');
    h.(life := Continuing(h.life, dump), ended := h.ended + Ending(h.life, dump))
  }

  /** The report of a whole history: of each kind the last events, in order, and the true number. */
  function Report(sum: Summing, h: History, clock: nat, clock': nat): Log
  {
    LogOf(sum, WithCutOff(h, clock, clock'))
  }

  function LogOf(sum: Summing, h: History): Log
  {
    Log(Last(ShownAll(sum, h.ended), MAX_SESSIONS), Last(h.pairs, MAX_PAIR_EVENTS),
        Last(h.wakes, MAX_WAKE_EVENTS), Last(h.scans, MAX_SCAN_EVENTS),
        |h.ended|, |h.pairs|, |h.wakes|, |h.scans|, Stats(Counts(h.services), |Counts(h.services)|))
  }

  // ----- The bounded logger refines the history

  predicate SessionRefines(sum: Summing, s: Logger, life: Option<Life>)
  {
    && s.session == (if life.Some? then Some(Shown(sum, life.value)) else None)
    && (life.Some? ==> s.start == life.value.start)
    && s.metrics == sum(Reports(life))
  }

  predicate QueuesRefine(sum: Summing, s: Logger, h: History)
  {
    && s.sessionQueue == Last(ShownAll(sum, h.ended), MAX_SESSIONS)
    && s.pairQueue == Last(h.pairs, MAX_PAIR_EVENTS)
    && s.wakeQueue == Last(h.wakes, MAX_WAKE_EVENTS)
    && s.scanQueue == Last(h.scans, MAX_SCAN_EVENTS)
    && s.log == EMPTY_LOG.(numSessions := |h.ended|, numPairs := |h.pairs|,
                           numWakes := |h.wakes|, numScans := |h.scans|)
  }

  /** In the steps, all that matters of the sum of no reports is that it is unset. */
  predicate Refines(sum: Summing, s: Logger, h: History)
  {
    && sum([]) == M.UNSET
    && SessionRefines(sum, s, h.life) && QueuesRefine(sum, s, h) && s.headsetCounts == Counts(h.services)
  }

  lemma {:induction false} QueueGrows(sum: Summing, ended: seq<Finished>, f: Finished)
    ensures Last(Last(ShownAll(sum, ended), MAX_SESSIONS) + [ShownFinished(sum, f)], MAX_SESSIONS) ==
            Last(ShownAll(sum, ended + [f]), MAX_SESSIONS)
  {
    assert (ended + [f])[..|ended|] == ended;
    LastOfLast(ShownAll(sum, ended), ShownFinished(sum, f), MAX_SESSIONS);
  }

  lemma {:induction false} EndRefines(sum: Summing, s: Logger, h: History, reason: Reason, timestamp: nat, clock: nat)
    requires Refines(sum, s, h)
    ensures Refines(sum, SessionEnded(s, reason, timestamp, clock), Recorded(h, End(reason, timestamp, clock)))
  {
    if h.life.Some? {
      QueueGrows(sum, h.ended, Finished(h.life.value, TimeOf(timestamp, clock), reason));
    } else {
      assert h.ended + [] == h.ended;
    }
  }

  /** A new session goes on where the last one ended. */
  lemma {:induction false} StartRefines(sum: Summing, s: Logger, h: History, call: Call)
    requires Refines(sum, s, h) && call.Start?
    ensures Refines(sum, SessionStarted(s, call.technology, call.timestamp, call.clock, call.clock'), Recorded(h, call))
  {
    var end := End(NextStartWithoutEndPrevious, 0, call.clock);
    EndRefines(sum, s, h, end.reason, 0, call.clock);
    assert Recorded(h, call) == Recorded(h, end).(life := Continuing(h.life, call));
  }

  lemma {:induction false} DeviceRefines(sum: Summing, s: Logger, h: History, deviceClass: int, clock: nat)
    requires Refines(sum, s, h)
    ensures Refines(sum, DeviceLogged(s, deviceClass, clock), Recorded(h, Device(deviceClass, clock)))
  {
    assert h.ended + [] == h.ended;
  }

  /** Getting a session ready for an audio report is what the report does, without the report. */
  lemma {:induction false} AudioSessionRefines(sum: Summing, s: Logger, h: History, clock: nat) returns (h': History)
    requires Refines(sum, s, h)
    ensures Refines(sum, AudioSession(s, clock), h') && h'.life.Some? && Reports(h'.life) == Reports(h.life)
    ensures forall x :: Recorded(h, A2dp(x, clock)) ==
              h'.(life := Some(h'.life.value.(reports := Reports(h.life) + [x])))
  {
    h' := h.(life := if h.life.Some? then h.life
                     else Some(Life(BrEdrTechnology, Some(DeviceInfo(COD_MAJOR_AUDIO, BrEdrDevice)), clock, [])));
    assert h.ended + [] == h.ended;
  }

  lemma {:induction false} ShownRefines(sum: Summing, s: Logger, h: History, reports: seq<M.Metrics>)
    requires Refines(sum, s, h) && h.life.Some? && reports != []
    ensures Refines(sum, MetricsShown(s, sum(reports)), h.(life := Some(h.life.value.(reports := reports))))
  {
  }

  lemma {:induction false} ReportRefines(sum: Summing, s: Logger, h: History, x: M.Metrics, clock: nat)
    requires Refines(sum, s, h) && sum(Reports(h.life) + [x]) == M.Updated(sum(Reports(h.life)), x)
    ensures Refines(sum, A2dpLogged(s, x, clock), Recorded(h, A2dp(x, clock)))
  {
    var h' := AudioSessionRefines(sum, s, h, clock);
    ShownRefines(sum, AudioSession(s, clock), h', Reports(h.life) + [x]);
  }

  lemma {:induction false} HeadsetRefines(sum: Summing, s: Logger, h: History, service: int)
    requires Refines(sum, s, h)
    ensures Refines(sum, HeadsetLogged(s, service), Recorded(h, Headset(service)))
  {
    assert (h.services + [service])[..|h.services|] == h.services;
    assert HeadsetLogged(s, service).headsetCounts == Counts(h.services + [service]);
  }

  lemma {:induction false} CutOffRefines(sum: Summing, s: Logger, h: History, clock: nat, clock': nat)
    requires Refines(sum, s, h)
    ensures Refines(sum, CutOff(s, clock, clock'), WithCutOff(h, clock, clock'))
  {
    EndRefines(sum, s, h, MetricsDump, 0, clock);
    assert h.ended + [] == h.ended;
  }

  lemma {:induction false} EmittedLog(sum: Summing, s: Logger, h: History)
    requires Refines(sum, s, h)
    ensures Bounded(s) && Emitted(s).log == LogOf(sum, h)
  {
  }

  lemma {:induction false} NoCounts()
    ensures Counts([]) == [0, 0, 0]
  {
  }

  lemma {:induction false} EmittedRefines(sum: Summing, s: Logger, h: History, s': Logger, h': History)
    requires Refines(sum, s, h) && s' == Emitted(s).(log := EMPTY_LOG) && h' == NO_HISTORY.(life := h.life)
    ensures Refines(sum, s', h')
  {
    NoCounts();
  }

  lemma {:induction false} DumpReports(sum: Summing, s: Logger, h: History, clock: nat, clock': nat)
    requires Refines(sum, s, h) && Bounded(s)
    ensures Written(s, clock, clock') == Report(sum, h, clock, clock')
  {
    CutOffRefines(sum, s, h, clock, clock');
    EmittedLog(sum, CutOff(s, clock, clock'), WithCutOff(h, clock, clock'));
  }

  lemma {:induction false} DumpRefines(sum: Summing, s: Logger, h: History, clock: nat, clock': nat)
    requires Refines(sum, s, h) && Bounded(s)
    ensures Refines(sum, Dumped(s, clock, clock'), Recorded(h, Dump(clock, clock')))
  {
    CutOffRefines(sum, s, h, clock, clock');
    EmittedRefines(sum, CutOff(s, clock, clock'), WithCutOff(h, clock, clock'),
                   Dumped(s, clock, clock'), Recorded(h, Dump(clock, clock')));
  }

  lemma {:induction false} PairRefines(sum: Summing, s: Logger, h: History, e: PairEvent)
    requires Refines(sum, s, h)
    ensures Refines(sum, PairLogged(s, e), Recorded(h, LogPair(e)))
  {
    LastOfLast(h.pairs, e, MAX_PAIR_EVENTS);
  }

  lemma {:induction false} WakeRefines(sum: Summing, s: Logger, h: History, e: WakeEvent)
    requires Refines(sum, s, h)
    ensures Refines(sum, WakeLogged(s, e), Recorded(h, LogWake(e)))
  {
    LastOfLast(h.wakes, e, MAX_WAKE_EVENTS);
  }

  lemma {:induction false} ScanRefines(sum: Summing, s: Logger, h: History, e: ScanEvent)
    requires Refines(sum, s, h)
    ensures Refines(sum, ScanLogged(s, e), Recorded(h, LogScan(e)))
  {
    LastOfLast(h.scans, e, MAX_SCAN_EVENTS);
  }

  lemma {:induction false} RefinesBounded(sum: Summing, s: Logger, h: History)
    requires Refines(sum, s, h)
    ensures Bounded(s)
  {
  }

  lemma {:induction false} EventCallRefines(sum: Summing, s: Logger, h: History, call: Call)
    requires Refines(sum, s, h) && Bounded(s) && (call.LogPair? || call.LogWake? || call.LogScan? || call.Headset?)
    ensures Refines(sum, Next(s, call), Recorded(h, call))
  {
    match call
    case LogPair(e) => PairRefines(sum, s, h, e);
    case LogWake(e) => WakeRefines(sum, s, h, e);
    case LogScan(e) => ScanRefines(sum, s, h, e);
    case Headset(service) => HeadsetRefines(sum, s, h, service);
  }

  lemma {:induction false} SessionCallRefines(sum: Summing, s: Logger, h: History, call: Call)
    requires Refines(sum, s, h) && Bounded(s) && (call.Start? || call.End? || call.Device?)
    ensures Refines(sum, Next(s, call), Recorded(h, call))
  {
    match call
    case Start(_, _, _, _) => StartRefines(sum, s, h, call);
    case End(reason, timestamp, t) => EndRefines(sum, s, h, reason, timestamp, t);
    case Device(deviceClass, t) => DeviceRefines(sum, s, h, deviceClass, t);
  }

  lemma {:induction false} ResetRefines(sum: Summing, s: Logger, h: History)
    requires Refines(sum, s, h)
    ensures Refines(sum, WasReset(s), Recorded(h, Reset))
  {
  }

  lemma {:induction false} ClearingCallRefines(sum: Summing, s: Logger, h: History, call: Call)
    requires Refines(sum, s, h) && Bounded(s) && (call.Dump? || call.Reset?)
    ensures Refines(sum, Next(s, call), Recorded(h, call))
  {
    match call
    case Dump(t, t') => DumpRefines(sum, s, h, t, t');
    case Reset => ResetRefines(sum, s, h);
  }

  lemma {:induction false} OtherCallRefines(sum: Summing, s: Logger, h: History, call: Call)
    requires Refines(sum, s, h) && Bounded(s) && !call.A2dp?
    ensures Refines(sum, Next(s, call), Recorded(h, call))
  {
    if call.Dump? || call.Reset? {
      ClearingCallRefines(sum, s, h, call);
    } else if call.Start? || call.End? || call.Device? {
      SessionCallRefines(sum, s, h, call);
    } else {
      EventCallRefines(sum, s, h, call);
    }
  }

  lemma {:induction false} ReportCallRefines(s: Logger, h: History, call: Call)
    requires Refines(M.Summary, s, h) && Bounded(s) && call.A2dp?
    ensures Refines(M.Summary, Next(s, call), Recorded(h, call))
  {
    M.SummaryGrows(Reports(h.life), call.metrics);
    ReportRefines(M.Summary, s, h, call.metrics, call.clock);
  }

  lemma {:induction false} CallRefines(s: Logger, h: History, call: Call)
    requires Refines(M.Summary, s, h)
    ensures Bounded(s) && Refines(M.Summary, Next(s, call), Recorded(h, call))
  {
    RefinesBounded(M.Summary, s, h);
    if call.A2dp? {
      ReportCallRefines(s, h, call);
    } else {
      OtherCallRefines(M.Summary, s, h, call);
    }
  }

  lemma {:induction false} RunRefines(calls: seq<Call>)
    ensures Refines(M.Summary, Run(calls), Past(calls))
  {
    if calls != [] {
      var n := |calls| - 1;
      RunRefines(calls[..n]);
      CallRefines(Run(calls[..n]), Past(calls[..n]), calls[n]);
    }
  }

  /** After any run of calls, a dump emits of each kind the last min(n, capacity) events in
      order with count n, and leaves every queue and the log empty. */
  lemma {:induction false} DumpReportsHistory(calls: seq<Call>, clock: nat, clock': nat)
    ensures Written(Run(calls), clock, clock') == Report(M.Summary, Past(calls), clock, clock')
    ensures var s := Dumped(Run(calls), clock, clock');
            && s.sessionQueue == [] && s.pairQueue == [] && s.wakeQueue == [] && s.scanQueue == []
            && s.log == EMPTY_LOG && s.headsetCounts == [0, 0, 0]
  {
    RunRefines(calls);
    DumpReports(M.Summary, Run(calls), Past(calls), clock, clock');
  }

  // ----- What a dumped log tells

  /** Duration and timer fields tell the sum, the extremes and the average of the reports. */
  predicate TellsTimers(a: A2dpSession, reports: seq<M.Metrics>)
  {
    && M.Max(0, a.audioDuration) == M.Durations(reports)
    && (forall i | 0 <= i < |reports| && reports[i].timerMin >= 0 :: 0 <= a.timerMin <= reports[i].timerMin)
    && (a.timerMin != -1 ==> exists i | 0 <= i < |reports| :: reports[i].timerMin == a.timerMin >= 0)
    && (forall i | 0 <= i < |reports| && reports[i].timerMax >= 0 :: reports[i].timerMax <= a.timerMax)
    && (a.timerMax != -1 ==> exists i | 0 <= i < |reports| :: reports[i].timerMax == a.timerMax >= 0)
    && var n, c := M.Averages(reports), M.TotalCount(reports);
    && (if n == 0 then a.timerAvg == -1
        else a.timerAvg >= 0 && 0 <= M.Weighted(reports) - a.timerAvg * c <= (n - 1) * c)
  }

  /** Overrun and underrun fields tell the sum, the greatest count and the mean of the reports. */
  predicate TellsBuffers(a: A2dpSession, reports: seq<M.Metrics>)
  {
    && M.Max(0, a.overrunsTotal) == M.Overruns(reports)
    && (forall i | 0 <= i < |reports| :: reports[i].overrunsMax <= M.Max(-1, a.overrunsMax))
    && (a.overrunsMax != -1 ==> exists i | 0 <= i < |reports| :: reports[i].overrunsMax == a.overrunsMax >= 0)
    && M.IsMean(a.underrunsAvg, a.underrunsCount, M.UnderrunCount(reports), M.WeightedUnderruns(reports))
  }

  predicate TellsCodec(a: A2dpSession, reports: seq<M.Metrics>)
  {
    && (a.offload <==> exists i | 0 <= i < |reports| :: reports[i].offload)
    && (a.codec != UnknownCodec ==>
          exists i | 0 <= i < |reports| :: M.FirstCodec(reports, i, CodecNumber(a.codec)))
    && (a.codec == UnknownCodec ==>
          forall i, c | 0 <= i < |reports| && 0 <= c < 5 :: !M.FirstCodec(reports, i, c))
  }

  function CodecNumber(codec: Codec): int
  {
    match codec
    case Sbc => 0
    case Aac => 1
    case AptX => 2
    case AptXHd => 3
    case Ldac => 4
    case UnknownCodec => -1
  }

  lemma {:induction false} TimersTold(reports: seq<M.Metrics>)
    ensures TellsTimers(ShownMetrics(M.Summary(reports)), reports)
  {
    M.DurationIsSum(reports);
    M.TimerExtremes(reports);
    M.AverageError(reports);
  }

  lemma {:induction false} BuffersTold(reports: seq<M.Metrics>)
    ensures TellsBuffers(ShownMetrics(M.Summary(reports)), reports)
  {
    M.OverrunTotals(reports);
    M.UnderrunMean(reports);
  }

  lemma {:induction false} CodecTold(reports: seq<M.Metrics>)
    ensures TellsCodec(ShownMetrics(M.Summary(reports)), reports)
  {
    M.CodecAndOffload(reports);
    var m := M.Summary(reports);
    if m.codecIndex >= 0 {
      var i: nat :| i < |reports| && M.FirstCodec(reports, i, m.codecIndex);
      var codec := SourceCodec(m.codecIndex);
      assert codec != UnknownCodec ==> M.FirstCodec(reports, i, CodecNumber(codec));
      forall j, c | 0 <= j < |reports| && M.FirstCodec(reports, j, c) ensures c == m.codecIndex {
        assert i == j;
      }
    }
  }

  /** What a dumped session says of the session that ended: its technology and device, why it
      ended, how many whole seconds it took, and the figures of its reports, if there were any. */
  predicate Tells(shown: Session, f: Finished)
  {
    && shown.technology == f.life.technology && shown.device == f.life.device && shown.reason == Some(f.reason)
    && (f.life.start <= f.end < TWO_64 ==> shown.duration == Some((f.end - f.life.start) / 1000))
    && (shown.a2dp.None? <==> f.life.reports == [])
    && (shown.a2dp.Some? ==>
          && TellsTimers(shown.a2dp.value, f.life.reports) && TellsBuffers(shown.a2dp.value, f.life.reports)
          && TellsCodec(shown.a2dp.value, f.life.reports))
  }

  lemma {:induction false} SessionTells(f: Finished)
    ensures Tells(ShownFinished(M.Summary, f), f)
  {
    TimersTold(f.life.reports);
    BuffersTold(f.life.reports);
    CodecTold(f.life.reports);
  }

  lemma {:induction false} ShownAt(sum: Summing, ended: seq<Finished>, i: nat)
    requires i < |ended|
    ensures ShownAll(sum, ended)[i] == ShownFinished(sum, ended[i])
  {
    var n := |ended| - 1;
    if i < n { ShownAt(sum, ended[..n], i); }
  }

  /** After any run of calls, the dumped sessions tell of the last sessions that ended, the live
      one included. */
  lemma {:induction false} DumpTellsSessions(calls: seq<Call>, clock: nat, clock': nat, i: nat)
    requires i < |Written(Run(calls), clock, clock').sessions|
    ensures var sessions := Written(Run(calls), clock, clock').sessions;
            var h := Past(calls);
            var ended := h.ended + Ending(h.life, Dump(clock, clock'));
            && |sessions| == M.Min(|ended|, 50)
            && Tells(sessions[i], ended[|ended| - |sessions| + i])
  {
    DumpReportsHistory(calls, clock, clock');
    var sessions, h := Written(Run(calls), clock, clock').sessions, Past(calls);
    var ended := h.ended + Ending(h.life, Dump(clock, clock'));
    var k := |ended| - |sessions| + i;
    ShownAt(M.Summary, ended, k);
    SessionTells(ended[k]);
  }

  /** After any run of calls, the dumped events are the last 50 pairings, 1000 wake locks and 50
      scans since the last dump, with the number there were of each. */
  lemma {:induction false} DumpTellsEvents(calls: seq<Call>, clock: nat, clock': nat)
    ensures var log, h := Written(Run(calls), clock, clock'), Past(calls);
            && log.numPairs == |h.pairs| && log.numWakes == |h.wakes| && log.numScans == |h.scans|
            && log.pairs == h.pairs[|h.pairs| - M.Min(|h.pairs|, 50)..]
            && log.wakes == h.wakes[|h.wakes| - M.Min(|h.wakes|, 1000)..]
            && log.scans == h.scans[|h.scans| - M.Min(|h.scans|, 50)..]
  {
    DumpReportsHistory(calls, clock, clock');
  }

  lemma {:induction false} StatsList(counts: seq<nat>, n: nat, profile: nat, count: nat)
    requires n <= |counts|
    ensures (profile, count) in Stats(counts, n) <==> profile < n && counts[profile] == count > 0
  {
    if n > 0 { StatsList(counts, n - 1, profile, count); }
  }

  /** The dumped headset statistics are the profiles that connected, with the number of times. */
  lemma {:induction false} DumpTellsHeadsets(calls: seq<Call>, clock: nat, clock': nat, profile: nat, count: nat)
    ensures (profile, count) in Written(Run(calls), clock, clock').headsetStats <==>
            profile < 3 && count > 0 && count == Connections(Past(calls).services, profile)
  {
    DumpReportsHistory(calls, clock, clock');
    StatsList(Counts(Past(calls).services), 3, profile, count);
  }

  /** In no run does the body of the last drain loop execute. */
  lemma {:induction false} LastLoopIdle(calls: seq<Call>, clock: nat, clock': nat)
    ensures Drained(CutOff(Run(calls), clock, clock')).sessionQueue == []
  {
    DrainsEverything(CutOff(Run(calls), clock, clock'));
  }

  // ----- What a history holds

  /** What becomes of a session: it ends, or a reset drops it. */
  datatype Outcome = Ended(session: Finished) | Dropped(life: Life)

  function ReportsOf(o: Outcome): seq<M.Metrics>
  {
    if o.Ended? then o.session.life.reports else o.life.reports
  }

  /** The session a call ends or drops, if it does. */
  function OutcomeOf(life: Option<Life>, call: Call): seq<Outcome>
  {
    if call.Reset? then (if life.Some? then [Dropped(life.value)] else [])
    else
      var ending := Ending(life, call);
      if ending == [] then [] else [Ended(ending[0])]
  }

  /** What became of every session of a run, over all its dumps and resets. */
  function Outcomes(calls: seq<Call>): seq<Outcome>
  {
    if calls == [] then [] else
      var n := |calls| - 1;
      Outcomes(calls[..n]) + OutcomeOf(Past(calls[..n]).life, calls[n])
  }

  function Flat(outcomes: seq<Outcome>): seq<M.Metrics>
  {
    if outcomes == [] then [] else
      var n := |outcomes| - 1;
      Flat(outcomes[..n]) + ReportsOf(outcomes[n])
  }

  function Received(calls: seq<Call>): seq<M.Metrics>
  {
    if calls == [] then [] else
      var n := |calls| - 1;
      Received(calls[..n]) + if calls[n].A2dp? then [calls[n].metrics] else []
  }

  lemma {:induction false} FlatGrows(outcomes: seq<Outcome>, o: Outcome)
    ensures Flat(outcomes + [o]) == Flat(outcomes) + ReportsOf(o)
  {
    assert (outcomes + [o])[..|outcomes|] == outcomes;
  }

  /** However sessions are started, ended, restarted, reset and cut off by dumps, each audio
      report goes to exactly one session, in order. */
  lemma {:induction false} ReportsPartitioned(calls: seq<Call>)
    ensures Flat(Outcomes(calls)) + Reports(Past(calls).life) == Received(calls)
  {
    if calls != [] {
      var n := |calls| - 1;
      ReportsPartitioned(calls[..n]);
      CallPartitions(Past(calls[..n]), Outcomes(calls[..n]), calls[n]);
    }
  }

  lemma {:induction false} CallPartitions(h: History, outcomes: seq<Outcome>, call: Call)
    ensures Flat(outcomes + OutcomeOf(h.life, call)) + Reports(Recorded(h, call).life) ==
            Flat(outcomes) + Reports(h.life) + if call.A2dp? then [call.metrics] else []
  {
    var o := OutcomeOf(h.life, call);
    LifePartitions(h.life, call);
    if o != [] {
      assert o == [o[0]];
      FlatGrows(outcomes, o[0]);
      Regroup(Flat(outcomes), ReportsOf(o[0]), Reports(Recorded(h, call).life));
    } else {
      assert outcomes + o == outcomes;
      assert [] + Reports(Recorded(h, call).life) == Reports(Recorded(h, call).life);
    }
    Regroup(Flat(outcomes), Reports(h.life), if call.A2dp? then [call.metrics] else []);
  }

  lemma {:induction false} LifePartitions(life: Option<Life>, call: Call)
    ensures var o := OutcomeOf(life, call);
            (if o == [] then [] else ReportsOf(o[0])) + Reports(Continuing(life, call)) ==
            Reports(life) + if call.A2dp? then [call.metrics] else []
  {
  }

  lemma {:induction false} Regroup<T>(a: seq<T>, b: seq<T>, c: seq<T>)
    ensures a + b + c == a + (b + c)
  {
  }

  /** The audio duration a session shows. */
  function ShownDuration(f: Finished): int
  {
    var a2dp := ShownFinished(M.Summary, f).a2dp;
    if a2dp.Some? then M.Max(0, a2dp.value.audioDuration) else 0
  }

  /** The audio durations shown by the sessions that ended. */
  function ShownDurations(outcomes: seq<Outcome>): int
  {
    if outcomes == [] then 0 else
      var n := |outcomes| - 1;
      ShownDurations(outcomes[..n]) + if outcomes[n].Ended? then ShownDuration(outcomes[n].session) else 0
  }

  /** The audio durations reported to sessions that a reset dropped. */
  function DroppedDurations(outcomes: seq<Outcome>): int
  {
    if outcomes == [] then 0 else
      var n := |outcomes| - 1;
      DroppedDurations(outcomes[..n]) + if outcomes[n].Dropped? then M.Durations(ReportsOf(outcomes[n])) else 0
  }

  lemma {:induction false} DurationsAdd(a: seq<M.Metrics>, b: seq<M.Metrics>)
    ensures M.Durations(a + b) == M.Durations(a) + M.Durations(b)
  {
    if b == [] {
      assert a + b == a;
    } else {
      var n := |b| - 1;
      DurationsAdd(a, b[..n]);
      assert (a + b)[..|a + b| - 1] == a + b[..n];
    }
  }

  lemma {:induction false} DurationsAreReported(outcomes: seq<Outcome>)
    ensures ShownDurations(outcomes) + DroppedDurations(outcomes) == M.Durations(Flat(outcomes))
  {
    if outcomes != [] {
      var n := |outcomes| - 1;
      DurationsAreReported(outcomes[..n]);
      DurationsAdd(Flat(outcomes[..n]), ReportsOf(outcomes[n]));
      M.DurationIsSum(ReportsOf(outcomes[n]));
    }
  }

  /** Audio time is conserved: the durations shown by all sessions that ended, those of
      sessions that a reset dropped and the one running in the live session add up to the
      durations reported. */
  lemma {:induction false} DurationConserved(calls: seq<Call>)
    ensures ShownDurations(Outcomes(calls)) + DroppedDurations(Outcomes(calls))
            + M.Max(0, Run(calls).metrics.audioDuration) == M.Durations(Received(calls))
  {
    RunRefines(calls);
    ReportsPartitioned(calls);
    DurationsAreReported(Outcomes(calls));
    DurationsAdd(Flat(Outcomes(calls)), Reports(Past(calls).life));
    M.DurationIsSum(Reports(Past(calls).life));
  }

  predicate BetweenDumps(calls: seq<Call>)
  {
    forall i | 0 <= i < |calls| :: !calls[i].Dump? && !calls[i].Reset?
  }

  /** The events of each kind. */
  datatype Events = Events(pairs: seq<PairEvent>, wakes: seq<WakeEvent>, scans: seq<ScanEvent>)

  function Then(a: Events, b: Events): Events
  {
    Events(a.pairs + b.pairs, a.wakes + b.wakes, a.scans + b.scans)
  }

  function EventsOf(call: Call): Events
  {
    match call
    case LogPair(e) => Events([e], [], [])
    case LogWake(e) => Events([], [e], [])
    case LogScan(e) => Events([], [], [e])
    case _ => Events([], [], [])
  }

  function EventsIn(calls: seq<Call>): Events
  {
    if calls == [] then Events([], [], []) else
      var n := |calls| - 1;
      Then(EventsIn(calls[..n]), EventsOf(calls[n]))
  }

  function EventsPast(h: History): Events
  {
    Events(h.pairs, h.wakes, h.scans)
  }

  lemma {:induction false} CallAddsEvents(h: History, call: Call)
    requires !call.Dump? && !call.Reset?
    ensures EventsPast(Recorded(h, call)) == Then(EventsPast(h), EventsOf(call))
  {
  }

  lemma {:induction false} ThenAssociates(a: Events, b: Events, c: Events)
    ensures Then(Then(a, b), c) == Then(a, Then(b, c))
  {
  }

  /** Between dumps nothing is forgotten: a history is the one before and all events since. */
  lemma {:induction false} HistoryIsComplete(before: seq<Call>, calls: seq<Call>)
    requires BetweenDumps(calls)
    ensures EventsPast(Past(before + calls)) == Then(EventsPast(Past(before)), EventsIn(calls))
  {
    if calls == [] {
      assert before + calls == before;
    } else {
      var n := |calls| - 1;
      HistoryIsComplete(before, calls[..n]);
      PastGrows(before + calls[..n], calls[n]);
      assert before + calls[..n] + [calls[n]] == before + calls;
      CallAddsEvents(Past(before + calls[..n]), calls[n]);
      ThenAssociates(EventsPast(Past(before)), EventsIn(calls[..n]), EventsOf(calls[n]));
    }
  }

  lemma {:induction false} PastGrows(calls: seq<Call>, call: Call)
    ensures Past(calls + [call]) == Recorded(Past(calls), call)
  {
    assert (calls + [call])[..|calls|] == calls;
  }
}
