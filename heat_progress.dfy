/** The heat-scaled progress accumulator shared by the simmer scene (rate 0.5) and the rice scene
    (rate 0.8): every 100 ms, progress grows by heat/100 * rate and is clamped to exactly 100. */
module HeatProgress {

  /** The range of the heat slider (`min="10" max="100"`). */
  predicate SliderHeat(h: int) {
    10 <= h <= 100
  }

  /** One tick of the updater, run only while the scene is not complete. */
  function Step(prev: real, heat: int, rate: real): (next: real)
    requires 0.0 <= prev < 100.0 && SliderHeat(heat) && 0.0 < rate
    ensures prev < next <= 100.0
    ensures next == 100.0 <==> prev + heat as real / 100.0 * rate >= 100.0
    ensures next < 100.0 ==> next - prev == heat as real / 100.0 * rate
  {
    var sum := prev + heat as real / 100.0 * rate;
    if sum >= 100.0 then 100.0 else sum
  }

  /** Progress after one tick per entry of `heats` (the slider value at each tick), where ticks stop
      once progress is 100. */
  function Run(prev: real, heats: seq<int>, rate: real): (p: real)
    requires 0.0 <= prev <= 100.0 && 0.0 < rate
    requires forall i :: 0 <= i < |heats| ==> SliderHeat(heats[i])
    ensures prev <= p <= 100.0
    decreases |heats|
  {
    if heats == [] || prev == 100.0 then prev
    else Run(Step(prev, heats[0], rate), heats[1..], rate)
  }

  /** Whatever the player does with the slider, each tick adds at least rate/10, so enough ticks
      always complete the scene (in real arithmetic; the source uses floating point). */
  lemma {:induction false} CompletesWithin(prev: real, heats: seq<int>, rate: real)
    requires 0.0 <= prev <= 100.0 && 0.0 < rate
    requires forall i :: 0 <= i < |heats| ==> SliderHeat(heats[i])
    requires prev + |heats| as real * (rate / 10.0) >= 100.0
    ensures Run(prev, heats, rate) == 100.0
    decreases |heats|
  {
    if heats != [] && prev != 100.0 {
      var h := heats[0] as real;
      assert (h / 100.0 - 0.1) * rate >= 0.0;
      var next := Step(prev, heats[0], rate);
      assert next == 100.0 || next >= prev + rate / 10.0;
      CompletesWithin(next, heats[1..], rate);
    }
  }
}
