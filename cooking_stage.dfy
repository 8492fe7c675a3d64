/** The simmer scene (src/app/components/cook/CookingStage.tsx): a heat slider drives a progress
    accumulator; reaching 100 completes the scene once and advances the game 2500 ms later. */
module CookingStageScene {
  import opened Context
  import opened HeatProgress

  /** Progress per tick at full heat. */
  const Rate: real := 0.5
  const InitialHeat: int := 50
  const TickMs: nat := 100
  const AdvanceDelayMs: nat := 2500

  class CookingStage {
    var progress: real
    var heat: int
    var isComplete: bool
    /** The 2500 ms advance timer is scheduled and not yet fired or cancelled. */
    var advancePending: bool
    var successCues: nat
    var mounted: bool

    ghost predicate Valid()
      reads this
    {
      && 0.0 <= progress <= 100.0
      && SliderHeat(heat)
      && (isComplete <==> progress == 100.0)
      && successCues == (if isComplete then 1 else 0)
      && (advancePending ==> isComplete && mounted)
    }

    /** The progress interval is registered: mounted and not complete. */
    predicate Ticking()
      reads this
    {
      mounted && !isComplete
    }

    constructor ()
      ensures Valid() && Ticking()
      ensures progress == 0.0 && heat == InitialHeat && !advancePending && successCues == 0
    {
      progress, heat, isComplete, advancePending, successCues, mounted := 0.0, InitialHeat, false, false, 0, true;
    }

    /** The slider's `onChange`; re-registers the interval with the new heat. */
    method SetHeat(h: int)
      requires Valid() && SliderHeat(h)
      modifies this`heat
      ensures Valid() && heat == h
    {
      heat := h;
    }

    /** One interval tick. */
    method Tick()
      requires Valid() && Ticking()
      modifies this`progress, this`isComplete, this`successCues, this`advancePending
      ensures Valid()
      ensures progress == Step(old(progress), heat, Rate) && progress > old(progress)
      ensures isComplete <==> old(progress) + heat as real / 100.0 * Rate >= 100.0
      ensures advancePending == isComplete
      ensures heat == old(heat) && mounted
    {
      var next := progress + (heat as real / 100.0) * Rate;
      if next >= 100.0 {
        successCues := successCues + 1;
        isComplete := true;
        progress := 100.0;
        advancePending := true;
      } else {
        progress := next;
      }
    }

    /** The advance timer fires: `nextStage` is called once. */
    method FireAdvance(game: GameState)
      requires Valid() && advancePending
      modifies this`advancePending, game
      ensures Valid() && !advancePending && isComplete
      ensures game.Current() == old(game.Current()).(stage := Next(old(game.stage))) && game.Valid()
    {
      game.NextStage();
      advancePending := false;
    }

    /** Unmounting the scene clears the interval and the advance timer. */
    method Teardown()
      requires Valid()
      modifies this`mounted, this`advancePending
      ensures Valid() && !mounted && !advancePending && !Ticking()
    {
      mounted, advancePending := false, false;
    }
  }

  /** At any slider setting the simmer completes within 2000 ticks. */
  lemma CompletesWithin2000Ticks(heats: seq<int>)
    requires |heats| == 2000 && forall i :: 0 <= i < |heats| ==> SliderHeat(heats[i])
    ensures Run(0.0, heats, Rate) == 100.0
  {
    CompletesWithin(0.0, heats, Rate);
  }
}
