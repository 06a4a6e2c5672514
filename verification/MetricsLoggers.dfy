/** BluetoothMetricsLogger as it updates its fields; MetricsLog gives each method's meaning. */
module MetricsLoggers {
  import opened Options
  import opened LeakyQueues
  import opened A2dpMetrics
  import L = MetricsLog

  /** One drain loop of Build: moves items while there are any and the list is not past the
      capacity. */
  method Drain<T>(queue: LeakyBondedQueue<T>, list: seq<T>) returns (r: seq<T>)
    requires queue.Valid()
    modifies queue`queue
    ensures queue.Valid()
    ensures var k := L.Moved(|old(queue.queue)|, |list|, queue.capacity);
            && k <= |old(queue.queue)|
            && r == list + old(queue.queue)[..k] && queue.queue == old(queue.queue)[k..]
  {
    r := list;
    ghost var k := 0;
    while queue.queue != [] && |r| <= queue.capacity
      invariant queue.Valid() && k <= |old(queue.queue)|
      invariant r == list + old(queue.queue)[..k] && queue.queue == old(queue.queue)[k..]
      invariant k > 0 ==> |list| + k <= queue.capacity + 1
      decreases |queue.queue|
    {
      var item := queue.Dequeue();
      r := r + [item];
      k := k + 1;
    }
  }

  class BluetoothMetricsLogger {
    const sessionQueue: LeakyBondedQueue<L.Session>
    const pairQueue: LeakyBondedQueue<L.PairEvent>
    const wakeQueue: LeakyBondedQueue<L.WakeEvent>
    const scanQueue: LeakyBondedQueue<L.ScanEvent>
    var session: Option<L.Session>
    var start: nat
    var a2dp: A2dpSessionMetrics
    var headsetCounts: seq<nat>
    var log: L.Log

    ghost predicate Valid()
      reads this, sessionQueue, pairQueue, wakeQueue, scanQueue
    {
      && Separate()
      && sessionQueue.Valid() && pairQueue.Valid() && wakeQueue.Valid() && scanQueue.Valid()
      && sessionQueue.capacity == L.MAX_SESSIONS && pairQueue.capacity == L.MAX_PAIR_EVENTS
      && wakeQueue.capacity == L.MAX_WAKE_EVENTS && scanQueue.capacity == L.MAX_SCAN_EVENTS
      && |headsetCounts| == 3
    }

    /** No two queues share storage. */
    ghost predicate Separate()
    {
      var a: object, b: object, c: object, d: object := sessionQueue, pairQueue, wakeQueue, scanQueue;
      a != b && a != c && a != d && b != c && b != d && c != d
    }

    function Value(): L.Logger
      reads this, sessionQueue, pairQueue, wakeQueue, scanQueue, a2dp
    {
      L.Logger(sessionQueue.queue, pairQueue.queue, wakeQueue.queue, scanQueue.queue,
               session, start, a2dp.Value(), headsetCounts, log)
    }

    constructor ()
      ensures Valid() && Value() == L.NEW_LOGGER
    {
      sessionQueue := new LeakyBondedQueue(L.MAX_SESSIONS);
      pairQueue := new LeakyBondedQueue(L.MAX_PAIR_EVENTS);
      wakeQueue := new LeakyBondedQueue(L.MAX_WAKE_EVENTS);
      scanQueue := new LeakyBondedQueue(L.MAX_SCAN_EVENTS);
      session, start, headsetCounts, log := None, 0, [0, 0, 0], L.EMPTY_LOG;
      a2dp := new A2dpSessionMetrics();
    }

    method LogPairEvent(event: L.PairEvent)
      requires Valid()
      modifies `log, pairQueue
      ensures Valid() && Value() == L.PairLogged(old(Value()), event)
    {
      pairQueue.Enqueue(event);
      log := log.(numPairs := log.numPairs + 1);
    }

    method LogWakeEvent(event: L.WakeEvent)
      requires Valid()
      modifies `log, wakeQueue
      ensures Valid() && Value() == L.WakeLogged(old(Value()), event)
    {
      wakeQueue.Enqueue(event);
      log := log.(numWakes := log.numWakes + 1);
    }

    method LogScanEvent(event: L.ScanEvent)
      requires Valid()
      modifies `log, scanQueue
      ensures Valid() && Value() == L.ScanLogged(old(Value()), event)
    {
      scanQueue.Enqueue(event);
      log := log.(numScans := log.numScans + 1);
    }

    method LogBluetoothSessionEnd(reason: L.Reason, timestamp: nat, clock: nat)
      requires Valid()
      modifies `log, `session, `a2dp, sessionQueue
      ensures Valid() && (a2dp == old(a2dp) || fresh(a2dp))
      ensures Value() == L.SessionEnded(old(Value()), reason, timestamp, clock)
    {
      if session.None? {
        return;
      }
      var time := if timestamp == 0 then clock else timestamp;
      var done := session.value.(duration := Some(L.Seconds(start, time)), reason := Some(reason));
      sessionQueue.Enqueue(done);
      session := None;
      a2dp := new A2dpSessionMetrics();
      log := log.(numSessions := log.numSessions + 1);
    }

    method LogBluetoothSessionStart(technology: L.Technology, timestamp: nat, clock: nat, clock': nat)
      requires Valid()
      modifies `log, `session, `start, `a2dp, sessionQueue
      ensures Valid() && (a2dp == old(a2dp) || fresh(a2dp))
      ensures Value() == L.SessionStarted(old(Value()), technology, timestamp, clock, clock')
    {
      if session.Some? {
        LogBluetoothSessionEnd(L.NextStartWithoutEndPrevious, 0, clock);
      }
      start := if timestamp == 0 then clock' else timestamp;
      session := Some(L.Session(technology, None, None, None, None));
    }

    method LogBluetoothSessionDeviceInfo(deviceClass: int, clock: nat)
      requires Valid()
      modifies `log, `session, `start, `a2dp, sessionQueue
      ensures Valid() && (a2dp == old(a2dp) || fresh(a2dp))
      ensures Value() == L.DeviceLogged(old(Value()), deviceClass, clock)
    {
      if session.None? {
        LogBluetoothSessionStart(L.UnknownTechnology, 0, clock, clock);
      }
      session := Some(session.value.(device := Some(L.DeviceInfo(deviceClass, L.BrEdrDevice))));
    }

    /** The part of LogA2dpSession that finds or creates a session. */
    method EnsureAudioSession(clock: nat)
      requires Valid()
      modifies `log, `session, `start, `a2dp, sessionQueue
      ensures Valid() && (a2dp == old(a2dp) || fresh(a2dp))
      ensures Value() == L.AudioSession(old(Value()), clock)
    {
      if session.None? {
        LogBluetoothSessionStart(L.BrEdrTechnology, 0, clock, clock);
        LogBluetoothSessionDeviceInfo(L.COD_MAJOR_AUDIO, clock);
      }
    }

    method LogA2dpSession(metrics: Metrics, clock: nat)
      requires Valid()
      modifies this, sessionQueue, a2dp
      ensures Valid() && (a2dp == old(a2dp) || fresh(a2dp))
      ensures Value() == L.A2dpLogged(old(Value()), metrics, clock)
    {
      EnsureAudioSession(clock);
      a2dp.Update(metrics);
      session := Some(session.value.(a2dp := Some(L.ShownMetrics(a2dp.Value()))));
    }

    method LogHeadsetProfileRfcConnection(service: int)
      requires Valid()
      modifies `headsetCounts
      ensures Valid() && Value() == L.HeadsetLogged(old(Value()), service)
    {
      var profile := L.ProfileOf(service);
      headsetCounts := headsetCounts[profile := headsetCounts[profile] + 1];
    }

    method CutoffSession(clock: nat, clock': nat)
      requires Valid()
      modifies `log, `session, `start, `a2dp, sessionQueue
      ensures Valid() && (a2dp == old(a2dp) || fresh(a2dp))
      ensures Value() == L.CutOff(old(Value()), clock, clock')
    {
      if session.Some? {
        var newSession := session.value.(a2dp := None);
        LogBluetoothSessionEnd(L.MetricsDump, 0, clock);
        session := Some(newSession);
        start := clock';
        a2dp := new A2dpSessionMetrics();
      }
    }

    /** The first four loops of Build. */
    method DrainQueues()
      requires Valid()
      modifies `log, sessionQueue, pairQueue, wakeQueue, scanQueue
      ensures Valid() && Value() == L.Drained(old(Value()))
    {
      var sessions := Drain(sessionQueue, log.sessions);
      var pairs := Drain(pairQueue, log.pairs);
      var scans := Drain(scanQueue, log.scans);
      var wakes := Drain(wakeQueue, log.wakes);
      log := log.(sessions := sessions, pairs := pairs, scans := scans, wakes := wakes);
    }

    /** The last loop of Build, which tests one queue and pops another. */
    method DrainWakesAgain()
      requires Valid() && L.LastLoopDefined(Value())
      modifies `log, wakeQueue
      ensures Valid() && Value() == L.DrainedAgain(old(Value()))
    {
      ghost var queued, listed := wakeQueue.queue, log.wakes;
      ghost var k := 0;
      while sessionQueue.queue != [] && |log.wakes| <= wakeQueue.capacity
        invariant Valid() && L.LastLoopDefined(Value()) && k <= |queued|
        invariant wakeQueue.queue == queued[k..] && log == old(log).(wakes := listed + queued[..k])
        invariant k > 0 ==> sessionQueue.queue != [] && |listed| + k <= wakeQueue.capacity + 1
        decreases |wakeQueue.queue|
      {
        var item := wakeQueue.Dequeue();
        log := log.(wakes := log.wakes + [item]);
        k := k + 1;
      }
    }

    /** The headset loop of Build. */
    method ListHeadsets()
      requires Valid()
      modifies `log, `headsetCounts
      ensures Valid() && Value() == L.HeadsetsListed(old(Value()))
    {
      var i := 0;
      while i < |headsetCounts|
        invariant i <= |headsetCounts| && headsetCounts == old(headsetCounts)
        invariant log == old(log).(headsetStats := old(log.headsetStats) + L.Stats(headsetCounts, i))
      {
        if headsetCounts[i] > 0 {
          log := log.(headsetStats := log.headsetStats + [(i, headsetCounts[i])]);
        }
        i := i + 1;
      }
      headsetCounts := [0, 0, 0];
    }

    method Build(clock: nat, clock': nat)
      requires Valid() && L.LastLoopDefined(L.Drained(L.CutOff(Value(), clock, clock')))
      modifies this, sessionQueue, pairQueue, wakeQueue, scanQueue
      ensures Valid() && (a2dp == old(a2dp) || fresh(a2dp))
      ensures Value() == L.Built(old(Value()), clock, clock')
    {
      CutoffSession(clock, clock');
      DrainQueues();
      DrainWakesAgain();
      ListHeadsets();
    }

    method WriteString(clock: nat, clock': nat) returns (serialized: L.Log)
      requires Valid() && L.Bounded(Value())
      modifies this, sessionQueue, pairQueue, wakeQueue, scanQueue
      ensures Valid() && (a2dp == old(a2dp) || fresh(a2dp))
      ensures serialized == L.Written(old(Value()), clock, clock')
      ensures Value() == L.Dumped(old(Value()), clock, clock')
    {
      L.BuildEmits(Value(), clock, clock');
      Build(clock, clock');
      serialized := log;
      log := L.EMPTY_LOG;
    }

    method Reset()
      requires Valid()
      modifies this, sessionQueue, pairQueue, wakeQueue, scanQueue
      ensures Valid() && (a2dp == old(a2dp) || fresh(a2dp))
      ensures Value() == L.WasReset(old(Value()))
    {
      session, start := None, 0;
      a2dp := new A2dpSessionMetrics();
      log := L.EMPTY_LOG;
      sessionQueue.Clear();
      pairQueue.Clear();
      wakeQueue.Clear();
      scanQueue.Clear();
    }
  }
}
