/** The countdown timer (src/app/components/cook/SimmerTimer.tsx): 30 steps counted down at a speed
    picked by the heat level, a one-shot rice prompt at 10 and a one-shot completion at 0. */
module SimmerTimerScene {

  const Duration: int := 30
  const PromptAt: int := 10
  const CompleteDelayMs: nat := 1000

  /** `multipliers[heat]` for the heat levels 0, 1 and 2. */
  function Speed(heat: int): (m: real)
    requires 0 <= heat <= 2
    ensures 1.0 <= m <= 4.5
  {
    [1.0, 2.0, 4.5][heat]
  }

  /** The interval period in milliseconds, `1000 / currentSpeed`. */
  function Period(heat: int): (ms: real)
    requires 0 <= heat <= 2
    ensures 0.0 < ms <= 1000.0
  {
    1000.0 / Speed(heat)
  }

  /** A hotter level ticks strictly faster: one tick per second, per half second, per 2/9 second. */
  lemma PeriodByHeat()
    ensures Period(0) == 1000.0 && Period(1) == 500.0 && Period(2) * 4.5 == 1000.0
    ensures Period(0) > Period(1) > Period(2)
  {
  }

  /** The progress ring, as a percentage of the countdown elapsed. */
  function Progress(timeLeft: int): (pct: real)
    requires 0 <= timeLeft <= Duration
    ensures 0.0 <= pct <= 100.0
    ensures pct == 0.0 <==> timeLeft == Duration
    ensures pct == 100.0 <==> timeLeft == 0
  {
    (Duration - timeLeft) as real / Duration as real * 100.0
  }

  /** Less time left means more progress. */
  lemma ProgressMonotone(t1: int, t2: int)
    requires 0 <= t1 <= t2 <= Duration
    ensures Progress(t1) >= Progress(t2)
    ensures t1 < t2 ==> Progress(t1) > Progress(t2)
  {
  }

  class SimmerTimer {
    var timeLeft: int
    var isFinishing: bool
    var promptedRice: bool
    /** The `heat` and `riceStarted` props. */
    var heat: int
    var riceStarted: bool
    var mounted: bool
    var ricePrompts: nat
    var tickCues: nat
    var successCues: nat
    /** The 1000 ms `onComplete` timeout is scheduled and has not fired. */
    var completionPending: bool
    var completions: nat

    /** What holds between renders, before the effect has looked at the new values. */
    ghost predicate Counters()
      reads this
    {
      && 0 <= timeLeft <= Duration && 0 <= heat <= 2
      && ricePrompts == (if promptedRice then 1 else 0)
      && (promptedRice ==> timeLeft <= PromptAt)
      && (isFinishing ==> timeLeft == 0)
      && successCues == (if isFinishing then 1 else 0)
      && completions + (if completionPending then 1 else 0) == successCues
    }

    /** After the effect: the prompt and the completion have fired if they were due. */
    ghost predicate Valid()
      reads this
    {
      && Counters()
      && (timeLeft <= PromptAt && !riceStarted ==> promptedRice)
      && (timeLeft == 0 ==> isFinishing)
    }

    /** The countdown interval is registered: mounted and time left. */
    predicate Ticking()
      reads this
    {
      mounted && timeLeft > 0
    }

    constructor (heatLevel: int, started: bool)
      requires 0 <= heatLevel <= 2
      ensures Valid() && Ticking()
      ensures timeLeft == Duration && heat == heatLevel && riceStarted == started
      ensures !promptedRice && !isFinishing && !completionPending
      ensures ricePrompts == 0 && tickCues == 0 && successCues == 0 && completions == 0
    {
      timeLeft, isFinishing, promptedRice := Duration, false, false;
      heat, riceStarted, mounted := heatLevel, started, true;
      ricePrompts, tickCues, successCues, completionPending, completions := 0, 0, 0, false, 0;
    }

    /** The effect body, run whenever one of its inputs changed. */
    method Effect()
      requires Counters()
      modifies this`promptedRice, this`ricePrompts, this`isFinishing, this`successCues, this`completionPending
      ensures Valid()
      ensures promptedRice == (old(promptedRice) || (timeLeft <= PromptAt && !riceStarted))
      ensures isFinishing == (timeLeft == 0)
      ensures completionPending == (old(completionPending) || (timeLeft == 0 && !old(isFinishing)))
    {
      if timeLeft <= PromptAt && !promptedRice && !riceStarted {
        promptedRice := true;
        ricePrompts := ricePrompts + 1;
      }
      if timeLeft <= 0 {
        if !isFinishing {
          isFinishing := true;
          successCues := successCues + 1;
          completionPending := true;
        }
      }
    }

    /** One interval tick: a tick cue, one step less, then the effect. */
    method Tick()
      requires Valid() && Ticking()
      modifies this`timeLeft, this`tickCues
      modifies this`promptedRice, this`ricePrompts, this`isFinishing, this`successCues, this`completionPending
      ensures Valid()
      ensures timeLeft == old(timeLeft) - 1 && tickCues == old(tickCues) + 1
      ensures heat == old(heat) && riceStarted == old(riceStarted) && mounted
      ensures promptedRice == (old(promptedRice) || (timeLeft <= PromptAt && !riceStarted))
      ensures completionPending == (old(completionPending) || timeLeft == 0)
      ensures completions == old(completions)
    {
      if timeLeft > 0 {
        tickCues := tickCues + 1;
      }
      timeLeft := if timeLeft - 1 > 0 then timeLeft - 1 else 0;
      Effect();
    }

    /** The parent changes the `riceStarted` prop. */
    method SetRiceStarted(started: bool)
      requires Valid() && mounted
      modifies this`riceStarted
      modifies this`promptedRice, this`ricePrompts, this`isFinishing, this`successCues, this`completionPending
      ensures Valid()
      ensures riceStarted == started && timeLeft == old(timeLeft) && mounted
      ensures promptedRice == (old(promptedRice) || (timeLeft <= PromptAt && !started))
      ensures completionPending == old(completionPending) && completions == old(completions)
    {
      riceStarted := started;
      Effect();
    }

    /** The parent changes the `heat` prop; the interval is registered again with the new period. */
    method SetHeat(level: int)
      requires Valid() && mounted && 0 <= level <= 2
      modifies this`heat
      ensures Valid() && heat == level
    {
      heat := level;
    }

    /** The `onComplete` timeout fires; it is the only call of `onComplete`. */
    method FireComplete()
      requires Valid() && completionPending
      modifies this`completionPending, this`completions
      ensures Valid() && !completionPending && completions == 1
    {
      completionPending := false;
      completions := completions + 1;
    }

    /** Unmounting clears the interval. The `onComplete` timeout is not returned from the effect, so
        it is not cleared and may still fire. */
    method Teardown()
      requires Valid()
      modifies this`mounted
      ensures Valid() && !mounted && !Ticking()
      ensures completionPending == old(completionPending)
    {
      mounted := false;
    }
  }
}
