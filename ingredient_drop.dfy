/** The beef-drop scene (src/app/components/cook/IngredientDrop.tsx): four cubes are dragged into the
    pot; each hit removes the cube, counts it and shows a splash for 1000 ms. */
module IngredientDropScene {
  import opened Wrappers
  import opened Lists
  import opened Context
  import opened Geometry

  /** `INITIAL_CUBES`, by id. */
  const InitialCubes: seq<int> := [1, 2, 3, 4]
  const SplashMs: nat := 1000
  const AdvanceDelayMs: nat := 2500

  /** A splash marker; its id is the clock reading when it was created. */
  datatype Splash = Splash(id: int, x: real, y: real)

  /** `prev.filter(s => s.id !== sid)`. */
  function WithoutSplash(ss: seq<Splash>, sid: int): (r: seq<Splash>)
    ensures forall s :: s in r <==> s in ss && s.id != sid
    ensures |r| <= |ss|
  {
    if ss == [] then []
    else if ss[0].id == sid then WithoutSplash(ss[1..], sid)
    else [ss[0]] + WithoutSplash(ss[1..], sid)
  }

  /** The splash filter distributes over concatenation, so the surviving splashes stay untouched, in
      their order and with their copies (each single splash is kept or dropped by WithoutSplashOne). */
  lemma {:induction false} WithoutSplashAppend(a: seq<Splash>, b: seq<Splash>, sid: int)
    ensures WithoutSplash(a + b, sid) == WithoutSplash(a, sid) + WithoutSplash(b, sid)
    decreases |a|
  {
    if a == [] {
      assert a + b == b;
    } else {
      var ab := a + b;
      assert ab[0] == a[0] && ab[1..] == a[1..] + b;
      WithoutSplashAppend(a[1..], b, sid);
      if a[0].id == sid {
        assert WithoutSplash(ab, sid) == WithoutSplash(ab[1..], sid);
      } else {
        assert WithoutSplash(ab, sid) == [a[0]] + WithoutSplash(ab[1..], sid);
      }
    }
  }

  /** A single splash is kept exactly when its id differs. */
  lemma WithoutSplashOne(s: Splash, sid: int)
    ensures WithoutSplash([s], sid) == if s.id == sid then [] else [s]
  {
    assert [s][1..] == [];
  }

  class IngredientDrop {
    var cubes: seq<int>
    var droppedCount: int
    var splashes: seq<Splash>
    var advancePending: bool
    var successCues: nat
    var splashCues: nat
    var mounted: bool

    /** `isComplete`, derived on every render. */
    function IsComplete(): (b: bool)
      reads this
    {
      droppedCount == |InitialCubes|
    }

    ghost predicate Valid()
      reads this
    {
      && NoDup(cubes)
      && (forall c :: c in cubes ==> c in InitialCubes)
      && droppedCount >= 0
      && |cubes| + droppedCount >= |InitialCubes|
      && (advancePending ==> IsComplete() && mounted)
    }

    constructor ()
      ensures Valid() && mounted
      ensures cubes == InitialCubes && droppedCount == 0 && splashes == []
      ensures !advancePending && successCues == 0 && splashCues == 0
    {
      cubes, droppedCount, splashes := InitialCubes, 0, [];
      advancePending, successCues, splashCues, mounted := false, 0, 0, true;
    }

    /** `handleDragEnd` for cube `id` released at (x, y) at clock time `now`, with the pot's current
        rectangle if the pot exists. */
    method DragEnd(id: int, x: real, y: real, pot: Option<Rect>, now: int)
      requires Valid() && mounted
      modifies this`cubes, this`droppedCount, this`splashes, this`splashCues, this`successCues, this`advancePending
      ensures Valid() && mounted
      ensures Hits(pot, x, y) ==>
        && cubes == Without(old(cubes), id)
        && droppedCount == old(droppedCount) + 1
        && splashes == old(splashes) + [Splash(now, x, y)]
        && splashCues == old(splashCues) + 1
        && successCues == old(successCues) + (if old(droppedCount) + 1 == |InitialCubes| then 1 else 0)
        && advancePending == (if old(IsComplete()) != IsComplete() then IsComplete() else old(advancePending))
      ensures !Hits(pot, x, y) ==>
        && cubes == old(cubes) && droppedCount == old(droppedCount) && splashes == old(splashes)
        && splashCues == old(splashCues) && successCues == old(successCues)
        && advancePending == old(advancePending)
      ensures old(id in cubes) ==> |cubes| + droppedCount == old(|cubes| + droppedCount)
    {
      if pot.None? {
        return;
      }
      var r := pot.value;
      if Inside(r, x, y) {
        var wasComplete := IsComplete();
        splashCues := splashCues + 1;
        splashes := splashes + [Splash(now, x, y)];
        if id in cubes {
          WithoutPresent(cubes, id);
        } else {
          WithoutAbsent(cubes, id);
        }
        cubes := Without(cubes, id);
        droppedCount := droppedCount + 1;
        if droppedCount == |InitialCubes| {
          successCues := successCues + 1;
        }
        if wasComplete != IsComplete() {
          advancePending := IsComplete();
        }
      }
    }

    /** The splash timer for `sid` fires: that splash goes, every other splash stays. */
    method ExpireSplash(sid: int)
      requires Valid()
      modifies this`splashes
      ensures Valid()
      ensures splashes == WithoutSplash(old(splashes), sid)
    {
      splashes := WithoutSplash(splashes, sid);
    }

    method FireAdvance(game: GameState)
      requires Valid() && advancePending
      modifies this`advancePending, game
      ensures Valid() && !advancePending && IsComplete()
      ensures game.Current() == old(game.Current()).(stage := Next(old(game.stage))) && game.Valid()
    {
      game.NextStage();
      advancePending := false;
    }

    method Teardown()
      requires Valid()
      modifies this`mounted, this`advancePending
      ensures Valid() && !mounted && !advancePending
    {
      mounted, advancePending := false, false;
    }
  }

  /** Counting the cubes: with every drop taken from the cubes still shown, the shown cubes and the
      dropped count always add up to four, so completion is exactly "no cube left". */
  lemma {:induction false} CubesAccountedFor(cubes: seq<int>, dropped: int, id: int)
    requires NoDup(cubes) && id in cubes && |cubes| + dropped == |InitialCubes|
    ensures |Without(cubes, id)| + (dropped + 1) == |InitialCubes|
    ensures NoDup(Without(cubes, id))
    ensures dropped + 1 == |InitialCubes| <==> Without(cubes, id) == []
  {
    WithoutPresent(cubes, id);
  }
}
