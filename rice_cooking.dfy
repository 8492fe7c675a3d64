/** The rice scene (src/app/components/cook/RiceCooking.tsx): the rice must be dropped into the pot
    before a heat-driven accumulator runs; reaching 100 completes the scene once and advances the game
    2500 ms later. */
module RiceCookingScene {
  import opened Wrappers
  import opened Context
  import opened Geometry
  import opened HeatProgress

  /** Progress per tick at full heat. */
  const Rate: real := 0.8
  const InitialHeat: int := 30
  const TickMs: nat := 100
  const AdvanceDelayMs: nat := 2500

  class RiceCooking {
    var riceDropped: bool
    var progress: real
    var heat: int
    var isComplete: bool
    var advancePending: bool
    var successCues: nat
    var splashCues: nat
    /** How often the completing tick stopped the simmer sound; the effect's own stop calls on
        completion and on cleanup only repeat it and are not counted. */
    var simmerStops: nat
    var mounted: bool

    ghost predicate Valid()
      reads this
    {
      && 0.0 <= progress <= 100.0
      && SliderHeat(heat)
      && (progress > 0.0 ==> riceDropped)
      && (isComplete <==> progress == 100.0)
      && successCues == (if isComplete then 1 else 0)
      && simmerStops == successCues
      && (advancePending ==> isComplete && mounted)
    }

    /** The progress interval is registered: mounted, rice in the pot, not complete. */
    predicate Ticking()
      reads this
    {
      mounted && riceDropped && !isComplete
    }

    constructor ()
      ensures Valid() && mounted && !Ticking()
      ensures !riceDropped && progress == 0.0 && heat == InitialHeat && !advancePending
      ensures successCues == 0 && splashCues == 0
    {
      riceDropped, progress, heat, isComplete := false, 0.0, InitialHeat, false;
      advancePending, successCues, splashCues, simmerStops, mounted := false, 0, 0, 0, true;
    }

    /** `handleDrop`: the rice bag released at (x, y), with the pot's current rectangle if it exists. */
    method DragEnd(x: real, y: real, pot: Option<Rect>)
      requires Valid() && mounted
      modifies this`riceDropped, this`splashCues
      ensures Valid()
      ensures riceDropped == (old(riceDropped) || Hits(pot, x, y))
      ensures splashCues == old(splashCues) + (if Hits(pot, x, y) then 1 else 0)
    {
      if pot.Some? {
        var r := pot.value;
        if Inside(r, x, y) {
          splashCues := splashCues + 1;
          riceDropped := true;
        }
      }
    }

    method SetHeat(h: int)
      requires Valid() && SliderHeat(h)
      modifies this`heat
      ensures Valid() && heat == h
    {
      heat := h;
    }

    /** One interval tick. */
    method Tick()
      requires Valid() && Ticking()
      modifies this`progress, this`isComplete, this`successCues, this`simmerStops, this`advancePending
      ensures Valid()
      ensures progress == Step(old(progress), heat, Rate) && progress > old(progress)
      ensures isComplete <==> old(progress) + heat as real / 100.0 * Rate >= 100.0
      ensures advancePending == isComplete
      ensures riceDropped && heat == old(heat) && mounted && splashCues == old(splashCues)
    {
      var step := (heat as real / 100.0) * Rate;
      var next := progress + step;
      if next >= 100.0 {
        successCues := successCues + 1;
        simmerStops := simmerStops + 1;
        isComplete := true;
        progress := 100.0;
        advancePending := true;
      } else {
        progress := next;
      }
    }

    method FireAdvance(game: GameState)
      requires Valid() && advancePending
      modifies this`advancePending, game
      ensures Valid() && !advancePending && isComplete
      ensures game.Current() == old(game.Current()).(stage := Next(old(game.stage))) && game.Valid()
    {
      game.NextStage();
      advancePending := false;
    }

    method Teardown()
      requires Valid()
      modifies this`mounted, this`advancePending
      ensures Valid() && !mounted && !advancePending && !Ticking()
    {
      mounted, advancePending := false, false;
    }
  }

  /** Once the rice is in, at any slider setting the rice cooks within 1250 ticks. */
  lemma CompletesWithin1250Ticks(heats: seq<int>)
    requires |heats| == 1250 && forall i :: 0 <= i < |heats| ==> SliderHeat(heats[i])
    ensures Run(0.0, heats, Rate) == 100.0
  {
    CompletesWithin(0.0, heats, Rate);
  }
}
