/** The timer objects, method by method, against the timer functions of the protocol. */
module Timers {
  import opened Options
  import opened MachineInts
  import opened TimerGrid
  import opened TimerProtocol

  /** What CancelHelper leaves to do: nothing, or post CancelClosure to a loop. */
  datatype CancelPlan = Fulfilled | PostTo(loop: LoopId)

  class RepeatingTimer {
    var messageLoopThread: Option<LoopId>
    var task: Option<nat>
    var wrapperGeneration: nat
    var wrapperArmed: bool
    var period: int
    var expectedTimeNextTask: int

    ghost function Value(): Timer
      reads this
    {
      Timer(Repeating, messageLoopThread, task, wrapperGeneration, wrapperArmed, period, expectedTimeNextTask)
    }

    constructor ()
      ensures Value() == Init(Repeating).timer
    {
      messageLoopThread, task := None, None;
      wrapperGeneration, wrapperArmed := 0, false;
      period, expectedTimeNextTask := 0, 0;
    }

    /** SchedulePeriodic once CancelAndWait is over: returns the delay to post with. */
    method Install(loop: LoopId, newPeriod: int, first: int, now: int, posted: bool) returns (delay: int)
      modifies this
      ensures Value() == Rearmed(old(Value()), loop, first, newPeriod, posted)
      ensures -TWO_63 <= first - now < TWO_63 ==> now + delay == first
    {
      expectedTimeNextTask := first;
      wrapperGeneration := wrapperGeneration + 1;
      task, wrapperArmed := Some(wrapperGeneration), true;
      messageLoopThread, period := Some(loop), newPeriod;
      delay := I64(U64(first - now));
      if -TWO_63 <= first - now < TWO_63 { SignedDifference(first - now); }
      if !posted {
        expectedTimeNextTask, wrapperArmed := 0, false;
        messageLoopThread, period := None, 0;
      }
    }

    method CancelHelper(caller: Option<LoopId>, threadRunning: bool) returns (plan: CancelPlan)
      requires caller.Some? && caller == messageLoopThread ==> threadRunning
      modifies this
      ensures Value() == if caller.Some? && caller == old(messageLoopThread)
                         then Cancelled(old(Value())) else old(Value())
      ensures plan == if old(messageLoopThread).Some? && caller != old(messageLoopThread) && threadRunning
                      then PostTo(old(messageLoopThread).value) else Fulfilled
    {
      plan := Fulfilled;
      if messageLoopThread.Some? {
        if caller == messageLoopThread {
          CancelClosure();
        } else if threadRunning {
          plan := PostTo(messageLoopThread.value);
        }
      }
    }

    method CancelClosure()
      modifies this
      ensures Value() == Cancelled(old(Value()))
    {
      messageLoopThread, wrapperArmed := None, false;
      task, period, expectedTimeNextTask := None, 0, 0;
    }

    /** RunTask: `started` names the task that is run, `delay` the next post. */
    method RunTask(now: int, threadRunning: bool) returns (started: Option<nat>, delay: Option<int>)
      requires messageLoopThread.Some? && threadRunning ==> period >= 1
      modifies this`expectedTimeNextTask
      ensures old(messageLoopThread).None? || !threadRunning ==>
                Value() == old(Value()) && started == None && delay == None
      ensures old(messageLoopThread).Some? && threadRunning ==>
                && started == task
                && (Value(), delay) == TaskStarted(old(Value()), now)
    {
      started, delay := None, None;
      if messageLoopThread.None? || !threadRunning { return; }
      expectedTimeNextTask := U64(expectedTimeNextTask + period);
      var remaining := I64(U64(expectedTimeNextTask - now));
      if remaining < 0 {
        remaining := CRem(CRem(remaining, period) + period, period);
      }
      started, delay := task, Some(remaining);
    }
  }

  class OnceTimer {
    var messageLoopThread: Option<LoopId>
    var task: Option<nat>
    var wrapperGeneration: nat
    var wrapperArmed: bool
    var delayTime: int

    ghost function Value(): Timer
      reads this
    {
      Timer(Once, messageLoopThread, task, wrapperGeneration, wrapperArmed, delayTime, 0)
    }

    constructor ()
      ensures Value() == Init(Once).timer
    {
      messageLoopThread, task := None, None;
      wrapperGeneration, wrapperArmed, delayTime := 0, false, 0;
    }

    /** Schedule once CancelAndWait is over: returns the delay to post with. */
    method Install(loop: LoopId, newDelay: int, due: int, now: int, posted: bool) returns (delay: int)
      modifies this
      ensures Value() == Rearmed(old(Value()), loop, due, newDelay, posted)
      ensures -TWO_63 <= due - now < TWO_63 ==> now + delay == due
    {
      wrapperGeneration := wrapperGeneration + 1;
      task, wrapperArmed := Some(wrapperGeneration), true;
      messageLoopThread, delayTime := Some(loop), newDelay;
      delay := I64(U64(due - now));
      if -TWO_63 <= due - now < TWO_63 { SignedDifference(due - now); }
      if !posted {
        wrapperArmed, messageLoopThread, delayTime := false, None, 0;
      }
    }

    method CancelHelper(caller: Option<LoopId>, threadRunning: bool) returns (plan: CancelPlan)
      requires caller.Some? && caller == messageLoopThread ==> threadRunning
      modifies this
      ensures Value() == if caller.Some? && caller == old(messageLoopThread)
                         then Cancelled(old(Value())) else old(Value())
      ensures plan == if old(messageLoopThread).Some? && caller != old(messageLoopThread) && threadRunning
                      then PostTo(old(messageLoopThread).value) else Fulfilled
    {
      plan := Fulfilled;
      if messageLoopThread.None? { return; }
      if caller == messageLoopThread {
        CancelClosure();
      } else if threadRunning {
        plan := PostTo(messageLoopThread.value);
      }
    }

    method CancelClosure()
      modifies this
      ensures Value() == Cancelled(old(Value()))
    {
      messageLoopThread, wrapperArmed, delayTime := None, false, 0;
    }

    /** RunTask up to the start of the task. */
    method StartTask(threadRunning: bool) returns (started: Option<nat>)
      modifies this`wrapperArmed, this`task
      ensures old(messageLoopThread).None? || !threadRunning ==> Value() == old(Value()) && started == None
      ensures old(messageLoopThread).Some? && threadRunning ==>
                started == old(task) && forall now :: Value() == TaskStarted(old(Value()), now).0
    {
      started := None;
      if messageLoopThread.None? || !threadRunning { return; }
      wrapperArmed := false;
      started, task := task, None;
    }

    /** RunTask after the task. */
    method FinishTask()
      modifies this`messageLoopThread
      ensures Value() == TaskEnded(old(Value()))
    {
      messageLoopThread := None;
    }
  }
}
