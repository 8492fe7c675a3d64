/** The market scene (src/app/components/market/MiseEnPlace.tsx): the shelf shows the catalog minus
    the collected ids, a card dropped on the bowl is collected, and collecting as many ids as the
    catalog has completes the scene once. */
module MiseEnPlaceScene {
  import opened Wrappers
  import opened Lists
  import opened Constants
  import opened Context
  import opened Geometry

  const VortexDelayMs: nat := 1000
  const AdvanceDelayMs: nat := 3000

  /** `availableIngredients`: the records of `catalog` whose id is not in `collected`, in catalog order. */
  function Shelf(catalog: seq<Ingredient>, collected: seq<string>): (r: seq<Ingredient>)
    ensures forall g :: g in r <==> g in catalog && g.id !in collected
    ensures |r| <= |catalog|
    ensures NoDup(catalog) ==> NoDup(r)
    ensures NoDup(catalog) ==>
      forall i, j :: 0 <= i < j < |r| ==> FirstIndex(catalog, r[i]) < FirstIndex(catalog, r[j])
  {
    if catalog == [] then []
    else
      var rest := Shelf(catalog[1..], collected);
      assert NoDup(catalog) ==> NoDup(catalog[1..]) && catalog[0] !in catalog[1..];
      if catalog[0].id in collected then rest else [catalog[0]] + rest
  }

  /** With nothing collected the shelf is the whole catalog, in catalog order. */
  lemma {:induction false} FullShelf(catalog: seq<Ingredient>)
    ensures Shelf(catalog, []) == catalog
  {
    if catalog != [] {
      FullShelf(catalog[1..]);
    }
  }

  /** Collecting `x` takes exactly the cards with id `x` off the shelf and keeps the others in order;
      only membership in `collected` matters, not its order. */
  lemma {:induction false} ShelfAfterCollect(catalog: seq<Ingredient>, before: seq<string>, after: seq<string>, x: string)
    requires forall y :: y in after <==> y in before || y == x
    ensures Shelf(catalog, after) == Shelf(Shelf(catalog, before), [x])
  {
    if catalog != [] {
      ShelfAfterCollect(catalog[1..], before, after, x);
    }
  }

  /** The length test agrees with an empty shelf whenever only catalog ids, each once, are collected
      (which is what dropping shelf cards produces). */
  lemma CountMeansEmptyShelf(collected: seq<string>)
    requires NoDup(collected)
    requires forall id :: id in collected ==> id in Ids(Ingredients)
    ensures |collected| == |Ingredients| <==> Shelf(Ingredients, collected) == []
  {
    CatalogShape();
    CountMeansEmptyShelfOf(Ingredients, collected);
  }

  lemma CountMeansEmptyShelfOf(catalog: seq<Ingredient>, collected: seq<string>)
    requires NoDup(Ids(catalog)) && NoDup(collected)
    requires forall id :: id in collected ==> id in Ids(catalog)
    ensures |collected| == |catalog| <==> Shelf(catalog, collected) == []
  {
    var ids := Ids(catalog);
    var c := set id | id in collected;
    var all := set id | id in ids;
    NoDupCard(collected);
    NoDupCard(ids);
    assert c <= all;
    SubsetCard(c, all);
    ShelfEmptyIff(catalog, collected);
    if c == all {
      forall k | 0 <= k < |catalog|
        ensures catalog[k].id in collected
      {
        assert ids[k] in all;
      }
    }
    if forall k :: 0 <= k < |catalog| ==> catalog[k].id in collected {
      forall id | id in all
        ensures id in c
      {
        var k :| 0 <= k < |ids| && ids[k] == id;
      }
    }
  }

  /** A subset with as many elements as the whole set is the whole set. */
  lemma SubsetCard(c: set<string>, all: set<string>)
    requires c <= all
    ensures |c| == |all| <==> c == all
  {
    assert all == c + (all - c);
    assert c !! (all - c);
    assert |all| == |c| + |all - c|;
  }

  /** The shelf is empty exactly when every catalog id has been collected. */
  lemma ShelfEmptyIff(catalog: seq<Ingredient>, collected: seq<string>)
    ensures Shelf(catalog, collected) == [] <==> forall k :: 0 <= k < |catalog| ==> catalog[k].id in collected
  {
    if Shelf(catalog, collected) != [] {
      var g := Shelf(catalog, collected)[0];
      assert g in Shelf(catalog, collected);
    }
  }

  /** The completion test counts and does not look at the ids: eleven ids that are not in the catalog
      complete the market while the whole catalog is still on the shelf. */
  lemma CountIgnoresIds()
    ensures var collected := ["1", "2", "3", "4", "5", "6", "7", "8", "9", "10", "11"];
      |collected| == |Ingredients| && Shelf(Ingredients, collected) == Ingredients
  {
    var collected := ["1", "2", "3", "4", "5", "6", "7", "8", "9", "10", "11"];
    assert forall g :: g in Ingredients ==> g.id !in collected;
    NoneCollected(Ingredients, collected);
  }

  lemma {:induction false} NoneCollected(catalog: seq<Ingredient>, collected: seq<string>)
    requires forall g :: g in catalog ==> g.id !in collected
    ensures Shelf(catalog, collected) == catalog
  {
    if catalog != [] {
      NoneCollected(catalog[1..], collected);
    }
  }

  class MiseEnPlace {
    var isComplete: bool
    var isTransitioning: bool
    /** The 1000 ms vortex timer and the 3000 ms advance timer are scheduled and not yet fired. */
    var vortexPending: bool
    var advancePending: bool
    var successCues: nat
    var sweepCues: nat
    var mounted: bool

    ghost predicate Valid()
      reads this
    {
      && successCues == (if isComplete then 1 else 0)
      && sweepCues == (if isTransitioning then 1 else 0)
      && (vortexPending || isTransitioning || advancePending ==> isComplete)
      && !(vortexPending && isTransitioning)
      && (vortexPending || advancePending ==> mounted)
      && (vortexPending ==> advancePending)
    }

    /** The completion effect for the current count of collected ids; reaching the catalog size sets
        `isComplete` once, plays the success cue and schedules both timers. */
    method CheckComplete(count: int)
      requires Valid() && mounted
      modifies this`isComplete, this`successCues, this`vortexPending, this`advancePending
      ensures Valid()
      ensures isComplete == (old(isComplete) || count == |Ingredients|)
      ensures isComplete != old(isComplete) ==> vortexPending && advancePending
      ensures isComplete == old(isComplete) ==> vortexPending == old(vortexPending) && advancePending == old(advancePending)
    {
      if count == |Ingredients| && !isComplete {
        isComplete := true;
        successCues := successCues + 1;
        vortexPending, advancePending := true, true;
      }
    }

    /** Mounting the scene runs the completion effect once on the current list. */
    constructor (game: GameState)
      ensures Valid() && mounted && !isTransitioning
      ensures isComplete == (|game.ingredients| == |Ingredients|)
      ensures vortexPending == isComplete && advancePending == isComplete
    {
      isComplete, isTransitioning, vortexPending, advancePending := false, false, false, false;
      successCues, sweepCues, mounted := 0, 0, true;
      new;
      CheckComplete(|game.ingredients|);
    }

    /** `handleDrop`: the card `id` released at (x, y), with the bowl's current rectangle if the bowl
        exists. A hit collects the id; the completion effect then sees the new count. */
    method Drop(game: GameState, id: string, x: real, y: real, bowl: Option<Rect>)
      requires Valid() && mounted
      modifies this, game
      ensures Valid() && mounted && (Hits(bowl, x, y) ==> game.Valid())
      ensures Hits(bowl, x, y) ==>
        && game.Current() == old(game.Current()).(ingredients := AddUnique(old(game.ingredients), id))
        && isComplete == (old(isComplete) || |game.ingredients| == |Ingredients|)
      ensures !Hits(bowl, x, y) ==>
        && game.Current() == old(game.Current()) && game.storage == old(game.storage)
        && isComplete == old(isComplete)
      ensures isComplete != old(isComplete) ==> vortexPending && advancePending
      ensures isComplete == old(isComplete) ==>
        vortexPending == old(vortexPending) && advancePending == old(advancePending) && successCues == old(successCues)
      ensures isTransitioning == old(isTransitioning)
    {
      if bowl.Some? {
        var r := bowl.value;
        if Inside(r, x, y) {
          game.AddIngredient(id);
          CheckComplete(|game.ingredients|);
        }
      }
    }

    /** The vortex timer fires. */
    method FireVortex()
      requires Valid() && vortexPending
      modifies this`isTransitioning, this`sweepCues, this`vortexPending
      ensures Valid() && isTransitioning && !vortexPending && sweepCues == 1
    {
      isTransitioning := true;
      sweepCues := sweepCues + 1;
      vortexPending := false;
    }

    /** The advance timer fires, after the earlier vortex timer: `nextStage` is called once. */
    method FireAdvance(game: GameState)
      requires Valid() && advancePending && !vortexPending
      modifies this`advancePending, game
      ensures Valid() && !advancePending && isComplete
      ensures game.Current() == old(game.Current()).(stage := Next(old(game.stage))) && game.Valid()
    {
      game.NextStage();
      advancePending := false;
    }

    /** The "MOVE TO PREP" button that the bowl shows once the market is complete: `nextStage` at
        once, without waiting for the advance timer, which stays scheduled until the scene unmounts. */
    method ClickMoveToPrep(game: GameState)
      requires Valid() && isComplete && mounted
      modifies game
      ensures Valid()
      ensures game.Current() == old(game.Current()).(stage := Next(old(game.stage))) && game.Valid()
    {
      game.NextStage();
    }

    /** Unmounting cancels both timers. */
    method Teardown()
      requires Valid()
      modifies this`mounted, this`vortexPending, this`advancePending
      ensures Valid() && !mounted && !vortexPending && !advancePending
    {
      mounted, vortexPending, advancePending := false, false, false;
    }
  }
}
