/** The timer registry of server/utils/scheduler.js: two logical slots, the
    quiz-end timer (`quizTimeoutId`) and the reset timer (`resetTimeoutId`),
    each holding at most one pending one-shot callback. The clock is a
    parameter (`now`) and the runtime's firing of a timer is the `Fire` step.
    A callback is a tag naming the server handler it stands for; a null
    callback is `None`, and firing it does nothing. */
module Scheduler {
  import opened Wrappers

  /** Node's `setTimeout` replaces a delay above 2^31 - 1 ms (or below 1 ms)
      by 1 ms. */
  const MaxTimerDelay := 2147483647

  datatype Callback = QuizEnd | ResetTrigger

  datatype Slot = QuizSlot | ResetSlot

  /** A pending `setTimeout(callback, delay)` armed at time `armedAt`. */
  datatype Timer = Timer(armedAt: int, delay: int, callback: Option<Callback>)

  /** The earliest time at which the runtime runs the timer. */
  function DueAt(t: Timer): (due: int)
    ensures 1 <= t.delay <= MaxTimerDelay ==> due == t.armedAt + t.delay
    ensures !(1 <= t.delay <= MaxTimerDelay) ==> due == t.armedAt + 1
  {
    t.armedAt + (if 1 <= t.delay <= MaxTimerDelay then t.delay else 1)
  }

  /** The pending timer of each slot. */
  datatype Timers = Timers(quiz: Option<Timer>, reset: Option<Timer>)

  function PendingIn(t: Timers, slot: Slot): Option<Timer>
  {
    match slot
    case QuizSlot => t.quiz
    case ResetSlot => t.reset
  }

  /** The timers after an arming call, and the callback it runs on the spot
      (catch-up when the deadline has already passed). */
  datatype Armed = Armed(timers: Timers, runNow: Option<Callback>)

  /** `startQuizScheduler(endTime, io, onQuizEnd, onResetTrigger)`: cancels
      both slots, then arms the quiz slot when the deadline is ahead, or else
      runs `onQuizEnd` at once (if there is one). `onReset` is never used, so
      the reset slot is left empty whatever it is. */
  function StartQuiz(endTime: int, now: int, onQuizEnd: Option<Callback>, onReset: Option<Callback>): (a: Armed)
    ensures a.timers.reset == None
    ensures endTime > now ==>
      a.runNow == None && a.timers.quiz == Some(Timer(now, endTime - now, onQuizEnd)) && endTime - now > 0
    ensures endTime <= now ==> a.timers.quiz == None && a.runNow == onQuizEnd
  {
    if endTime > now then Armed(Timers(Some(Timer(now, endTime - now, onQuizEnd)), None), None)
    else Armed(Timers(None, None), onQuizEnd)
  }

  /** `scheduleReset(resetTime, io, onReset)`: cancels only the reset slot,
      then arms it when the deadline is ahead, or else runs `onReset` at once
      (if there is one). */
  function ScheduleResetOf(t: Timers, resetTime: int, now: int, onReset: Option<Callback>): (a: Armed)
    ensures a.timers.quiz == t.quiz
    ensures resetTime > now ==>
      a.runNow == None && a.timers.reset == Some(Timer(now, resetTime - now, onReset)) && resetTime - now > 0
    ensures resetTime <= now ==> a.timers.reset == None && a.runNow == onReset
  {
    if resetTime > now then Armed(t.(reset := Some(Timer(now, resetTime - now, onReset))), None)
    else Armed(t.(reset := None), onReset)
  }

  /** The timers after one firing step, and the callback that ran (None when
      nothing ran, or when the fired timer had a null callback). */
  datatype Fired = Fired(timers: Timers, callback: Option<Callback>)

  predicate IsDue(t: Timers, slot: Slot, now: int)
  {
    PendingIn(t, slot).Some? && DueAt(PendingIn(t, slot).value) <= now
  }

  /** The runtime fires the slot's timer once its due time has come: the timer
      stops being pending and its callback runs. */
  function FireOf(t: Timers, slot: Slot, now: int): (f: Fired)
    ensures IsDue(t, slot, now) ==>
      f.callback == PendingIn(t, slot).value.callback &&
      PendingIn(f.timers, slot) == None &&
      (slot == QuizSlot ==> f.timers.reset == t.reset) &&
      (slot == ResetSlot ==> f.timers.quiz == t.quiz)
    ensures !IsDue(t, slot, now) ==> f == Fired(t, None)
  {
    if !IsDue(t, slot, now) then Fired(t, None)
    else match slot
      case QuizSlot => Fired(t.(quiz := None), t.quiz.value.callback)
      case ResetSlot => Fired(t.(reset := None), t.reset.value.callback)
  }

  /** A run of the runtime: fire steps on given slots at given times. */
  datatype Step = Step(slot: Slot, now: int)

  function FireAll(t: Timers, steps: seq<Step>): (ran: seq<Option<Callback>>)
    ensures |ran| == |steps|
    decreases |steps|
  {
    if steps == [] then []
    else
      var f := FireOf(t, steps[0].slot, steps[0].now);
      [f.callback] + FireAll(f.timers, steps[1..])
  }

  /** A slot with nothing pending stays silent through any run of fire steps
      on that slot: a cancelled timer never fires. */
  lemma {:induction false} EmptySlotNeverFires(t: Timers, slot: Slot, steps: seq<Step>)
    requires PendingIn(t, slot) == None
    requires forall i :: 0 <= i < |steps| ==> steps[i].slot == slot
    ensures forall i :: 0 <= i < |steps| ==> FireAll(t, steps)[i] == None
    decreases |steps|
  {
    if steps != [] {
      var f := FireOf(t, slot, steps[0].now);
      EmptySlotNeverFires(f.timers, slot, steps[1..]);
      var ran := FireAll(t, steps);
      forall i | 0 <= i < |steps|
        ensures ran[i] == None
      {
        if i > 0 {
          assert ran[i] == FireAll(f.timers, steps[1..])[i - 1];
        }
      }
    }
  }

  /** A timer runs its callback at most once: in any run of fire steps on one
      slot, at most one step runs something. */
  lemma {:induction false} FiresAtMostOnce(t: Timers, slot: Slot, steps: seq<Step>, i: nat, j: nat)
    requires forall k :: 0 <= k < |steps| ==> steps[k].slot == slot
    requires i < j < |steps|
    ensures !(FireAll(t, steps)[i].Some? && FireAll(t, steps)[j].Some?)
    decreases i
  {
    var f := FireOf(t, slot, steps[0].now);
    var ran := FireAll(t, steps);
    assert ran[j] == FireAll(f.timers, steps[1..])[j - 1];
    if i == 0 {
      if ran[0].Some? {
        EmptySlotNeverFires(f.timers, slot, steps[1..]);
      }
    } else {
      assert ran[i] == FireAll(f.timers, steps[1..])[i - 1];
      FiresAtMostOnce(f.timers, slot, steps[1..], i - 1, j - 1);
    }
  }

  /** No pending timer carries the reset callback. */
  predicate NoResetPending(t: Timers)
  {
    (t.quiz.Some? ==> t.quiz.value.callback != Some(ResetTrigger)) &&
    (t.reset.Some? ==> t.reset.value.callback != Some(ResetTrigger))
  }

  /** While no pending timer carries the reset callback, no run of fire steps,
      on either slot and at any times, ever runs it. */
  lemma {:induction false} ResetNeverRuns(t: Timers, steps: seq<Step>)
    requires NoResetPending(t)
    ensures forall i :: 0 <= i < |steps| ==> FireAll(t, steps)[i] != Some(ResetTrigger)
    decreases |steps|
  {
    if steps != [] {
      var f := FireOf(t, steps[0].slot, steps[0].now);
      ResetNeverRuns(f.timers, steps[1..]);
      var ran := FireAll(t, steps);
      forall i | 0 <= i < |steps|
        ensures ran[i] != Some(ResetTrigger)
      {
        if i > 0 {
          assert ran[i] == FireAll(f.timers, steps[1..])[i - 1];
        }
      }
    }
  }

  /** The reset as server/index.js:132 arms it, through `startQuizScheduler`
      with a null quiz-end callback: the only pending timer sits in the quiz
      slot with a null callback, the reset slot is empty, and no later firing
      of either slot ever runs the reset handler. */
  lemma ResetArmedThroughStartQuizNeverRuns(resetTime: int, now: int, steps: seq<Step>)
    requires resetTime > now
    ensures StartQuiz(resetTime, now, None, Some(ResetTrigger)).runNow == None
    ensures StartQuiz(resetTime, now, None, Some(ResetTrigger)).timers
      == Timers(Some(Timer(now, resetTime - now, None)), None)
    ensures forall i :: 0 <= i < |steps| ==>
      FireAll(StartQuiz(resetTime, now, None, Some(ResetTrigger)).timers, steps)[i] != Some(ResetTrigger)
  {
    ResetNeverRuns(StartQuiz(resetTime, now, None, Some(ResetTrigger)).timers, steps);
  }

  /** The reset armed through `scheduleReset` runs the reset handler when its
      deadline comes, and not before. */
  lemma ScheduledResetRunsAtDeadline(t: Timers, resetTime: int, now: int, fireAt: int)
    requires now < resetTime <= now + MaxTimerDelay
    ensures FireOf(ScheduleResetOf(t, resetTime, now, Some(ResetTrigger)).timers, ResetSlot, fireAt).callback
      == if fireAt >= resetTime then Some(ResetTrigger) else None
  {
  }

  /** A quiz deadline within the runtime's delay range ends the quiz when it
      comes, and not before; the reset slot never fires. */
  lemma ArmedQuizEndRunsAtDeadline(endTime: int, now: int, onQuizEnd: Option<Callback>,
                                   onReset: Option<Callback>, fireAt: int)
    requires now < endTime <= now + MaxTimerDelay
    ensures FireOf(StartQuiz(endTime, now, onQuizEnd, onReset).timers, QuizSlot, fireAt).callback
      == if fireAt >= endTime then onQuizEnd else None
    ensures FireOf(StartQuiz(endTime, now, onQuizEnd, onReset).timers, ResetSlot, fireAt).callback == None
  {
  }

  /** A quiz deadline more than 2^31 - 1 ms ahead (about 24.8 days) is cut to
      1 ms by the runtime: the quiz-end callback runs 1 ms after arming, long
      before the deadline. */
  lemma DistantQuizEndRunsAfterOneMs(endTime: int, now: int, onQuizEnd: Option<Callback>, onReset: Option<Callback>)
    requires endTime - now > MaxTimerDelay
    ensures FireOf(StartQuiz(endTime, now, onQuizEnd, onReset).timers, QuizSlot, now + 1).callback == onQuizEnd
    ensures now + 1 < endTime
  {
  }

  class TimerRegistry {
    var quizTimer: Option<Timer>   // quizTimeoutId
    var resetTimer: Option<Timer>  // resetTimeoutId

    constructor ()
      ensures quizTimer == None && resetTimer == None
    {
      quizTimer := None;
      resetTimer := None;
    }

    function Pending(): Timers
      reads this
    {
      Timers(quizTimer, resetTimer)
    }

    method StartQuizScheduler(endTime: int, now: int, onQuizEnd: Option<Callback>, onReset: Option<Callback>)
      returns (runNow: Option<Callback>)
      modifies this
      ensures Armed(Pending(), runNow) == StartQuiz(endTime, now, onQuizEnd, onReset)
    {
      if quizTimer.Some? { quizTimer := None; }
      if resetTimer.Some? { resetTimer := None; }
      runNow := None;
      if endTime > now {
        quizTimer := Some(Timer(now, endTime - now, onQuizEnd));
      } else if onQuizEnd.Some? {
        runNow := onQuizEnd;
      }
    }

    method ScheduleReset(resetTime: int, now: int, onReset: Option<Callback>)
      returns (runNow: Option<Callback>)
      modifies this
      ensures Armed(Pending(), runNow) == ScheduleResetOf(old(Pending()), resetTime, now, onReset)
    {
      if resetTimer.Some? { resetTimer := None; }
      runNow := None;
      if resetTime > now {
        resetTimer := Some(Timer(now, resetTime - now, onReset));
      } else if onReset.Some? {
        runNow := onReset;
      }
    }

    /** The runtime's step: run the slot's timer if it is due. */
    method Fire(slot: Slot, now: int) returns (callback: Option<Callback>)
      modifies this
      ensures Fired(Pending(), callback) == FireOf(old(Pending()), slot, now)
    {
      callback := None;
      match slot
      case QuizSlot =>
        if quizTimer.Some? && DueAt(quizTimer.value) <= now {
          callback := quizTimer.value.callback;
          quizTimer := None;
        }
      case ResetSlot =>
        if resetTimer.Some? && DueAt(resetTimer.value) <= now {
          callback := resetTimer.value.callback;
          resetTimer := None;
        }
    }
  }
}
