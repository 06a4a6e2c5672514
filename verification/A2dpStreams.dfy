/** The output stream of the legacy A2DP HAL as it updates its fields; A2dpStream gives each
    method's meaning. */
module A2dpStreams {
  import opened A2dpStream

  class OutputStream {
    var state: Phase
    var audioFd: int
    var writes: nat
    var closed: bool
    ghost var log: seq<Event>

    ghost function Value(): Stream
      reads this
    {
      Stream(state, audioFd, writes, closed, log)
    }

    constructor ()
      ensures Value() == NEW_STREAM
    {
      state, audioFd, writes, closed, log := Stopped, DISCONNECTED, 0, false, [];
    }

    method SktDisconnect()
      modifies `audioFd, `log
      ensures Value() == Disconnected(old(Value()))
    {
      if audioFd != DISCONNECTED {
        log := log + [Shut];
      }
      audioFd := DISCONNECTED;
    }

    method StartAudioDatapath(ack: Ack, connected: int) returns (status: int)
      modifies `state, `audioFd, `log
      ensures Value() == StartDatapath(old(Value()), ack, connected)
      ensures status == 0 || status == -1
      ensures status == 0 <==> ack == Success && (old(audioFd) != DISCONNECTED || connected >= 0)
      ensures status == 0 ==> state == Started
    {
      var oldState := state;
      state := Starting;
      log := log + [Sent(StartCommand)];
      if ack == Failure || ack == InCallFailure {
        state := oldState;
        return -1;
      }
      if audioFd == DISCONNECTED {
        audioFd := connected;
        if audioFd < 0 {
          state := oldState;
          return -1;
        }
        log := log + [Opened];
      }
      state := Started;
      return 0;
    }

    method StopAudioDatapath(ack: Ack) returns (status: int)
      modifies `state, `audioFd, `log
      ensures Value() == StopDatapath(old(Value()), ack) && status == (if ack == Failure then -1 else 0)
    {
      var oldState := state;
      state := Stopping;
      log := log + [Sent(StopCommand)];
      if ack == Failure {
        state := oldState;
        return -1;
      }
      state := Stopped;
      SktDisconnect();
      return 0;
    }

    method SuspendAudioDatapath(standby: bool, ack: Ack) returns (status: int)
      modifies `state, `audioFd, `log
      ensures Value() == SuspendDatapath(old(Value()), standby, ack)
      ensures status == if old(state) == Stopping || ack == Failure then -1 else 0
    {
      if state == Stopping {
        return -1;
      }
      log := log + [Sent(SuspendCommand)];
      if ack == Failure {
        return -1;
      }
      if standby {
        state := Standby;
      } else {
        log := log + [WasSuspended];
        state := Suspended;
      }
      SktDisconnect();
      return 0;
    }

    /** out_write until it gives up the lock; `sending` says whether it goes on to send. */
    method BeginOutWrite(ack: Ack, connected: int) returns (sending: bool)
      requires connected >= DISCONNECTED
      modifies `state, `audioFd, `writes, `log
      ensures Value() == WriteBegun(old(Value()), ack, connected)
      ensures sending <==> state == Started
    {
      if state == Suspended || state == Stopping {
        return false;
      }
      if state == Stopped || state == Standby {
        var status := StartAudioDatapath(ack, connected);
        if status < 0 {
          return false;
        }
      } else if state != Started {
        return false;
      }
      writes := writes + 1;
      return true;
    }

    /** out_write from where it has the lock again, with what the send returned. */
    method EndOutWrite(failed: bool)
      requires writes > 0
      modifies `state, `audioFd, `writes, `log
      ensures Value() == WriteEnded(old(Value()), failed)
    {
      writes := writes - 1;
      if failed {
        SktDisconnect();
        if state != Suspended && state != Stopping {
          state := Stopped;
        }
      }
    }

    method OutStandby(ack: Ack) returns (status: int)
      modifies `state, `audioFd, `log
      ensures Value() == StandBy(old(Value()), ack)
      ensures status == if old(state) == Stopping || (old(state) != Suspended && ack == Failure) then -1 else 0
    {
      status := 0;
      if state != Suspended {
        status := SuspendAudioDatapath(true, ack);
      }
    }

    method OutSetParameters(params: map<string, string>, ack: Ack) returns (status: int)
      modifies `state, `audioFd, `log
      ensures Value() == ParametersSet(old(Value()), params, ack)
      ensures status != 0 ==> IsTrue(params, "A2dpSuspended") && old(state) == Started && ack == Failure
    {
      status := 0;
      if |params| == 0 {
        return;
      }
      if "closing" in params && params["closing"] == "true" {
        log := log + [Closing];
        state := Stopping;
      }
      if "A2dpSuspended" in params && params["A2dpSuspended"] == "true" {
        if state == Started {
          status := SuspendAudioDatapath(false, ack);
        }
      } else if state == Suspended {
        log := log + [Resumed];
        state := Standby;
      }
    }

    method CloseOutputStream(ack: Ack)
      modifies this
      ensures Value() == Freed(old(Value()), ack)
    {
      if state == Started || state == Stopping {
        var _ := StopAudioDatapath(ack);
      }
      closed := true;
    }
  }
}
