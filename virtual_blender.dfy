/** The blender scene (src/app/components/prep/VirtualBlender.tsx): holding the button runs a 50 ms
    interval that adds 2 to an integer progress; the first tick that finds 100 completes the scene. */
module VirtualBlenderScene {
  import opened Context

  const Increment: int := 2
  const TickMs: nat := 50
  const AdvanceDelayMs: nat := 2500

  /** The `setProgress` updater of one tick: progress stays an even number in [0, 100] and never
      decreases, and below 100 it grows by exactly the increment. */
  function Step(prev: int): (next: int)
    ensures 0 <= prev <= 100 && prev % 2 == 0 ==> prev <= next <= 100 && next % 2 == 0
    ensures next == 100 || next == prev + Increment
  {
    if prev >= 100 then 100 else prev + Increment
  }

  /** The tick completes the scene exactly when it finds progress at 100 or more. */
  predicate CompletesOn(prev: int) {
    prev >= 100
  }

  /** Progress after `n` held ticks from 0. */
  function Held(n: nat): (p: int) {
    if n == 0 then 0 else Step(Held(n - 1))
  }

  lemma {:induction false} HeldProgress(n: nat)
    requires n <= 50
    ensures Held(n) == Increment * n
  {
    if n > 0 {
      HeldProgress(n - 1);
    }
  }

  /** From 0, ticks 1 to 50 only add, and tick 51 is the one that completes. */
  lemma FiftyOneTicksToComplete(k: nat)
    requires 1 <= k <= 51
    ensures CompletesOn(Held(k - 1)) <==> k == 51
  {
    HeldProgress(k - 1);
  }

  class VirtualBlender {
    var isBlending: bool
    var progress: int
    var isComplete: bool
    var advancePending: bool
    var successCues: nat
    var mounted: bool

    ghost predicate Valid()
      reads this
    {
      && 0 <= progress <= 100 && progress % 2 == 0
      && (isComplete ==> progress == 100 && !isBlending)
      && successCues == (if isComplete then 1 else 0)
      && (advancePending ==> isComplete && mounted)
    }

    /** The progress interval is registered: the button is held and the scene is not complete. */
    predicate Ticking()
      reads this
    {
      mounted && isBlending && !isComplete
    }

    constructor ()
      ensures Valid() && mounted && !Ticking()
      ensures progress == 0 && !isBlending && !isComplete && !advancePending && successCues == 0
    {
      isBlending, progress, isComplete, advancePending, successCues, mounted := false, 0, false, false, 0, true;
    }

    /** Pointer down on the button. */
    method StartBlending()
      requires Valid() && mounted
      modifies this`isBlending
      ensures Valid() && isBlending == !isComplete
    {
      if !isComplete {
        isBlending := true;
      }
    }

    /** Pointer up or leaving the button: blending stops, progress is kept. */
    method StopBlending()
      requires Valid()
      modifies this`isBlending
      ensures Valid() && !isBlending && !Ticking()
    {
      isBlending := false;
    }

    /** One interval tick. */
    method Tick()
      requires Valid() && Ticking()
      modifies this`progress, this`isComplete, this`isBlending, this`successCues, this`advancePending
      ensures Valid()
      ensures progress == Step(old(progress)) && old(progress) <= progress
      ensures isComplete == CompletesOn(old(progress))
      ensures isBlending == !isComplete && advancePending == isComplete && mounted
    {
      if progress >= 100 {
        isComplete := true;
        isBlending := false;
        successCues := successCues + 1;
        progress := 100;
        advancePending := true;
      } else {
        progress := progress + Increment;
      }
    }

    method FireAdvance(game: GameState)
      requires Valid() && advancePending
      modifies this`advancePending, game
      ensures Valid() && !advancePending && isComplete
      ensures game.Current() == old(game.Current()).(stage := Next(old(game.stage))) && game.Valid()
    {
      game.NextStage();
      advancePending := false;
    }

    method Teardown()
      requires Valid()
      modifies this`mounted, this`advancePending
      ensures Valid() && !mounted && !advancePending && !Ticking()
    {
      mounted, advancePending := false, false;
    }
  }
}
