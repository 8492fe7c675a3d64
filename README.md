# Salone Kitchen Quest — a Dafny model of the game state and the scene mechanics

Salone Kitchen Quest is a linear, browser-based cooking story. It has eight stages, played in order:
LANDING, INTRO, MARKET, BLENDER, SIMMER, BEEF_DROP, RICE_COOK and REVEAL. One shared game state holds:

- the current stage;
- the ids of the collected ingredients;
- the ids of the ingredients whose lore has been discovered;
- a serving size;
- a dark or light theme.

The state is saved to client-local storage after every change. The scene on screen is chosen from the
current stage. Each minigame scene runs a small timer-driven state machine. When it completes, it plays
a success cue and then advances the game.

This project models:

- `Context` (`context.dfy`) covers the stage order and `nextStage`/`prevStage` as pure functions.
  It also covers the first-occurrence dedupe behind `addIngredient`/`discoverLore`, the theme
  toggle, and the snapshot save and load. The provider itself is a `GameState` class with five
  fields and a storage slot. Its invariant `Valid()` says that the slot always holds the snapshot of
  the current fields.
- `GameManager` covers the stage→scene switch with its default branch, and the keyed container
  that remounts the scene when the stage changes.
- `Constants` covers the eleven-record ingredient catalog and lookup by id.
- `Geometry` holds the inclusive point-in-rectangle test that every drop target uses.
- `HeatProgress` is the heat-scaled accumulator shared by the simmer and rice scenes.
- One class per scene: `MiseEnPlace` (market), `VirtualBlender`, `CookingStage` (simmer),
  `IngredientDrop` (beef drop), `RiceCooking` and `SimmerTimer`. Each class's fields are the
  component's state hooks, plus counters for the cues it plays and flags for the timers it has
  scheduled.

Timers are explicit calls. A scene's `Tick` is the interval callback, and its `requires` says that
the interval is registered. `FireAdvance`, `FireVortex`, `FireComplete` and `ExpireSplash` are
timeout callbacks. `Teardown` is the final unmount: it cancels what the component's effect
cleanups cancel. The market's "MOVE TO PREP" button is `ClickMoveToPrep`.
Storage is the value `Stored`: `Empty`, `Unparsable`, or `Parsed` with a `Snapshot` whose
fields are optional. A missing or null field is `None`, which JavaScript treats as falsy.

Behaviour of the code worth knowing:

- Loading never restores the saved stage. It is read from the snapshot and then dropped, so a
  reloaded game always starts at LANDING. Save followed by load is therefore not the identity, even
  though the save writes every field and loses nothing (`Context.EncodeInjective`):
  `Context.ReloadAfterSave` states exactly what survives.
- A saved serving size of 0 is not restored, because the test is a truthiness check. An empty
  ingredient or lore array *is* restored, because arrays are truthy.
- `resetGame` removes the stored entry, but the save effect writes the reset fields straight back.
  After a reset the slot holds the new snapshot; it is not empty.
- `addIngredient` deduplicates the whole list, keeping each id at its first occurrence, so a
  restored list that holds duplicates loses them on the next addition. On a list without
  duplicates it appends the id when absent and changes nothing otherwise (`Context.AddUniqueOrder`).
- The market advances either through its 3000 ms timer or through the "MOVE TO PREP" button,
  whichever comes first.
- The market completes by count (`ingredientsCollected.length === INGREDIENTS.length`), not by
  checking ids against the catalog (`MiseEnPlaceScene.CountIgnoresIds`).
- SimmerTimer's `onComplete` timeout is not cleared when the component unmounts, so it can still
  fire afterwards.

## Model

| member | source | states |
|---|---|---|
| Context.Name | src/lib/context.tsx:5-13 | each stage's string is an upper-case key of at least five characters (letters and `_`) |
| Context.NameInjective | src/lib/context.tsx:5-13 | distinct stages have distinct strings, so a stored or keyed string identifies its stage |
| Context.Position | src/lib/context.tsx:33 | `STAGES.indexOf` always finds the stage, and indexing `STAGES` at the result gives it back |
| Context.Next | src/lib/context.tsx:99-104 | `nextStage` moves exactly one place along `STAGES`, and leaves REVEAL unchanged |
| Context.Prev | src/lib/context.tsx:106-111 | `prevStage` moves exactly one place back along `STAGES`, and leaves LANDING unchanged |
| Context.PrevUndoesNext | src/lib/context.tsx:99-111 | Prev(Next(s)) == s for every s other than REVEAL; Next(Prev(s)) == s for every s other than LANDING |
| Context.AdvancePosition | src/lib/context.tsx:99-104 | n `nextStage` calls move min(n, places left) along `STAGES`; the stage never passes REVEAL |
| Context.RetreatPosition | src/lib/context.tsx:106-111 | n `prevStage` calls move back max(0, ...) places; the stage never goes before LANDING |
| Context.WalkFromLanding | src/lib/context.tsx:33-104 | from LANDING, the k-th `nextStage` reaches `STAGES[k]`; from the seventh call on, the stage is REVEAL |
| Context.Distinct | src/lib/context.tsx:114 | `[...new Set(s)]` has no duplicates, has the same members as s, and lists them in order of their first occurrence in s |
| Context.DistinctOfNoDup | src/lib/context.tsx:114 | a list without duplicates comes out of the Set round trip unchanged |
| Context.AddUnique | src/lib/context.tsx:113-115 | the new list has no duplicates, contains the id, and has exactly the old members plus the id |
| Context.AddUniqueOrder | src/lib/context.tsx:113-115 | for any list, duplicates included, the result is the deduplicated old list (first-occurrence order, by Distinct's contract) with the id appended only if absent; on a duplicate-free list the result is `l` or `l + [x]` |
| Context.AddUniqueIdempotent | src/lib/context.tsx:128-130 | adding the same id twice equals adding it once (for ingredients and lore alike) |
| Context.Toggled | src/lib/context.tsx:124-126 | the theme updater always changes the theme |
| Context.ToggleTwice | src/lib/context.tsx:124-126 | toggling twice restores the theme |
| Context.Encode | src/lib/context.tsx:60-67 | the save writes all five fields with their current values, the stage as its `STAGES` string |
| Context.EncodeInjective | src/lib/context.tsx:60-67 | two states save to the same snapshot iff they are equal, so the save loses nothing |
| Context.Hydrate | src/lib/context.tsx:45-58 | the stage is always LANDING; each other field is restored only when present and truthy (size only when nonzero), otherwise it keeps its default; an empty or unparsable entry gives the defaults |
| Context.ReloadAfterSave | src/lib/context.tsx:45-67 | reloading a saved state gives it back with the stage reset to LANDING and a size of 0 read as 8; the round trip is exact iff the stage was LANDING and the size nonzero |
| Context.ThemeOnlySnapshot | src/lib/context.tsx:45-58 | a snapshot holding only theme "light" loads as the defaults with the light theme |
| Context.GameState.constructor | src/lib/context.tsx:37-69 | mounting gives the loaded fields, and the slot then holds their snapshot |
| Context.GameState.Save | src/lib/context.tsx:60-67 | the slot holds exactly `{stage, ingredients, size, theme, lore}` of the current fields |
| Context.GameState.SetStage | src/lib/context.tsx:97 | any stage is assigned without a check; nothing else changes |
| Context.GameState.NextStage | src/lib/context.tsx:99-104 | the stage becomes Next(old stage); the other fields are unchanged; the state is saved |
| Context.GameState.PrevStage | src/lib/context.tsx:106-111 | the stage becomes Prev(old stage); the other fields are unchanged; the state is saved |
| Context.GameState.AddIngredient | src/lib/context.tsx:113-115 | ingredients become AddUnique(old, id); the other fields are unchanged; the state is saved |
| Context.GameState.DiscoverLore | src/lib/context.tsx:128-130 | lore becomes AddUnique(old, id); the other fields are unchanged; the state is saved |
| Context.GameState.SetServingSize | src/lib/context.tsx:40 | any size is assigned without bounds; the state is saved |
| Context.GameState.ResetGame | src/lib/context.tsx:117-122 | stage INTRO, no ingredients, size 8; theme and lore are kept; the slot again holds the current snapshot |
| Context.GameState.ToggleTheme | src/lib/context.tsx:124-126 | the theme becomes its toggle; the other fields are unchanged; the state is saved |
| GameManager.SceneFor | src/app/components/shared/GameManager.tsx:31-50 | the switch returns either the default LandingPortal or the scene of the stage whose string is the key |
| GameManager.RenderStage | src/app/components/shared/GameManager.tsx:31-48 | the scene rendered for a stage belongs to that stage (`StageOf` gives the stage back) |
| GameManager.RenderStageInjective | src/app/components/shared/GameManager.tsx:31-48 | each stage renders its own scene (LANDING→LandingPortal, …, REVEAL→GrandReveal); `StageOf` inverts the switch, so distinct stages render distinct scenes |
| GameManager.UnknownKeyFallsBack | src/app/components/shared/GameManager.tsx:49-50 | a key that names none of the eight stages renders LandingPortal |
| GameManager.Reconcile | src/app/components/shared/GameManager.tsx:56-58 | the container is keyed by the stage: it renders that stage's scene, and gets a new instance exactly when the stage changed |
| Constants.CatalogShape | src/lib/constants.ts:8-20 | eleven records with pairwise distinct ids (so no record appears twice), "beef" first and "water" last |
| Constants.Find | src/app/components/prep/VirtualBlender.tsx:178 | `INGREDIENTS.find(i => i.id === id)` returns the first record carrying that id, and returns none iff no record carries it |
| Constants.FindCatalogId | src/lib/constants.ts:8-20 | looking up the id of the k-th record yields exactly the k-th record |
| Geometry.Inside | src/app/components/cook/IngredientDrop.tsx:53-58 | the inclusive four-comparison test of every drop target; a point is inside only a rectangle with left ≤ right and top ≤ bottom |
| Geometry.Hits | src/app/components/cook/RiceCooking.tsx:32-42 | a drop hits only when the target element exists and the point is inside its rectangle; a missing target never hits |
| Geometry.EdgesAreInclusive | src/app/components/market/MiseEnPlace.tsx:27-32 | points on all four edges hit; points past an edge miss; a missing target never hits |
| HeatProgress.Step | src/app/components/cook/CookingStage.tsx:44-52 | a tick strictly increases progress and keeps it ≤ 100; the result is exactly 100 iff the sum reached 100; otherwise it adds heat/100·rate |
| HeatProgress.Run | src/app/components/cook/CookingStage.tsx:40-59 | ticking under any slider history never decreases progress and never passes 100 |
| HeatProgress.CompletesWithin | src/app/components/cook/CookingStage.tsx:43-54 | ticks add at least rate/10 each, so prev + ticks·rate/10 ≥ 100 guarantees completion |
| CookingStageScene.CompletesWithin2000Ticks | src/app/components/cook/CookingStage.tsx:44-50 | in real arithmetic, at any slider setting the simmer completes within 2000 ticks |
| CookingStageScene.CookingStage.constructor | src/app/components/cook/CookingStage.tsx:13-15 | progress 0, heat 50, not complete, ticking |
| CookingStageScene.CookingStage.SetHeat | src/app/components/cook/CookingStage.tsx:226-231 | heat takes a slider value in [10, 100] |
| CookingStageScene.CookingStage.Tick | src/app/components/cook/CookingStage.tsx:43-54 | progress becomes Step(old, heat, 0.5) and grows; complete iff the sum reached 100; the success cue plays once; the advance is scheduled |
| CookingStageScene.CookingStage.FireAdvance | src/app/components/cook/CookingStage.tsx:61-66 | `nextStage` runs once and the timer is spent |
| CookingStageScene.CookingStage.Teardown | src/app/components/cook/CookingStage.tsx:56-58 | no more ticks and no pending advance after unmount |
| RiceCookingScene.RiceCooking.constructor | src/app/components/cook/RiceCooking.tsx:17-21 | rice not dropped, progress 0, heat 30, not ticking |
| RiceCookingScene.RiceCooking.DragEnd | src/app/components/cook/RiceCooking.tsx:30-48 | `riceDropped` becomes true iff the release point hits the existing pot (inclusive), and is never cleared |
| RiceCookingScene.RiceCooking.SetHeat | src/app/components/cook/RiceCooking.tsx:303-308 | heat takes a slider value in [10, 100] |
| RiceCookingScene.RiceCooking.Tick | src/app/components/cook/RiceCooking.tsx:63-86 | only after the drop: progress becomes Step(old, heat, 0.8); complete iff the sum reached 100; success cue and simmer stop happen once; progress > 0 implies the rice was dropped |
| RiceCookingScene.RiceCooking.FireAdvance | src/app/components/cook/RiceCooking.tsx:88-93 | `nextStage` runs once and the timer is spent |
| RiceCookingScene.RiceCooking.Teardown | src/app/components/cook/RiceCooking.tsx:83-85 | no more ticks and no pending advance after unmount |
| RiceCookingScene.CompletesWithin1250Ticks | src/app/components/cook/RiceCooking.tsx:66-81 | in real arithmetic, once the rice is in, it cooks within 1250 ticks at any slider setting |
| VirtualBlenderScene.Step | src/app/components/prep/VirtualBlender.tsx:51-61 | a tick keeps progress an even integer in [0, 100] and never lowers it; it either adds exactly 2 or leaves 100 |
| VirtualBlenderScene.HeldProgress | src/app/components/prep/VirtualBlender.tsx:51-61 | after n ≤ 50 held ticks from 0, progress is 2n |
| VirtualBlenderScene.FiftyOneTicksToComplete | src/app/components/prep/VirtualBlender.tsx:51-61 | from 0, ticks 1–50 only add and tick 51 is the one that completes |
| VirtualBlenderScene.VirtualBlender.constructor | src/app/components/prep/VirtualBlender.tsx:14-16 | not blending, progress 0, not complete |
| VirtualBlenderScene.VirtualBlender.StartBlending | src/app/components/prep/VirtualBlender.tsx:86-90 | blending starts only when the scene is not complete |
| VirtualBlenderScene.VirtualBlender.StopBlending | src/app/components/prep/VirtualBlender.tsx:92-94 | blending always stops; progress is kept |
| VirtualBlenderScene.VirtualBlender.Tick | src/app/components/prep/VirtualBlender.tsx:50-62 | progress becomes Step(old); the tick completes iff old ≥ 100, then clears blending, plays the success cue once and schedules the advance |
| VirtualBlenderScene.VirtualBlender.FireAdvance | src/app/components/prep/VirtualBlender.tsx:79-84 | `nextStage` runs once and the timer is spent |
| VirtualBlenderScene.VirtualBlender.Teardown | src/app/components/prep/VirtualBlender.tsx:64-70 | no more ticks and no pending advance after unmount |
| Lists.Without | src/app/components/cook/IngredientDrop.tsx:64 | filtering out a cube id keeps exactly the other cubes, each with its copies (the multiset minus the id), and never lengthens the list |
| Lists.WithoutAppend | src/app/components/cook/IngredientDrop.tsx:64 | the filter distributes over concatenation, so the kept cubes stay in their order |
| Lists.WithoutOne | src/app/components/cook/IngredientDrop.tsx:64 | a single element is kept exactly when it differs from the removed id |
| IngredientDropScene.WithoutSplash | src/app/components/cook/IngredientDrop.tsx:62 | exactly the splashes with that id go; every other splash stays |
| IngredientDropScene.WithoutSplashAppend | src/app/components/cook/IngredientDrop.tsx:62 | the splash filter distributes over concatenation, so surviving splashes keep their order and copies |
| IngredientDropScene.WithoutSplashOne | src/app/components/cook/IngredientDrop.tsx:62 | a single splash is kept exactly when its id differs from the expired one |
| IngredientDropScene.IngredientDrop.IsComplete | src/app/components/cook/IngredientDrop.tsx:24 | `isComplete` is derived from the drop count alone: exactly four drops, whatever cubes remain |
| IngredientDropScene.CubesAccountedFor | src/app/components/cook/IngredientDrop.tsx:64-65 | dropping a shown cube keeps shown + dropped == 4, and completion coincides with no cube left |
| IngredientDropScene.IngredientDrop.constructor | src/app/components/cook/IngredientDrop.tsx:10-22 | cubes [1, 2, 3, 4], nothing dropped, no splashes |
| IngredientDropScene.IngredientDrop.DragEnd | src/app/components/cook/IngredientDrop.tsx:46-71 | a hit on the existing pot (inclusive) removes exactly that cube, adds 1 to the count, appends a splash and plays the success cue on reaching 4; a miss changes nothing |
| IngredientDropScene.IngredientDrop.ExpireSplash | src/app/components/cook/IngredientDrop.tsx:62 | the splash list becomes WithoutSplash(old, id) |
| IngredientDropScene.IngredientDrop.FireAdvance | src/app/components/cook/IngredientDrop.tsx:73-78 | `nextStage` runs once and the timer is spent |
| IngredientDropScene.IngredientDrop.Teardown | src/app/components/cook/IngredientDrop.tsx:76 | no pending advance after unmount |
| MiseEnPlaceScene.Shelf | src/app/components/market/MiseEnPlace.tsx:20-22 | the shelf holds exactly the catalog records whose id is not collected; for a catalog without repeated records (such as the real one, by CatalogShape) each appears once, in catalog order |
| MiseEnPlaceScene.FullShelf | src/app/components/market/MiseEnPlace.tsx:20-22 | with nothing collected the shelf is the whole catalog, in catalog order |
| MiseEnPlaceScene.ShelfAfterCollect | src/app/components/market/MiseEnPlace.tsx:20-36 | collecting x removes exactly the cards with id x and keeps the others in order |
| MiseEnPlaceScene.CountMeansEmptyShelf | src/app/components/market/MiseEnPlace.tsx:38-42 | with only catalog ids, each once, the count reaches 11 iff the shelf is empty |
| MiseEnPlaceScene.CountIgnoresIds | src/app/components/market/MiseEnPlace.tsx:39 | eleven ids that are not in the catalog pass the length test while the whole catalog is still on the shelf |
| MiseEnPlaceScene.MiseEnPlace.CheckComplete | src/app/components/market/MiseEnPlace.tsx:38-50 | `isComplete` becomes old ∨ (count == 11) and never goes back; on becoming true it plays the success cue once and schedules both timers |
| MiseEnPlaceScene.MiseEnPlace.constructor | src/app/components/market/MiseEnPlace.tsx:12-42 | mounting runs the completion check on the current list |
| MiseEnPlaceScene.MiseEnPlace.Drop | src/app/components/market/MiseEnPlace.tsx:24-36 | `addIngredient` runs iff left ≤ x ≤ right and top ≤ y ≤ bottom of an existing bowl; a miss changes nothing in the game or the scene |
| MiseEnPlaceScene.MiseEnPlace.FireVortex | src/app/components/market/MiseEnPlace.tsx:47-50 | the transition flag is set and the sweep cue plays once |
| MiseEnPlaceScene.MiseEnPlace.FireAdvance | src/app/components/market/MiseEnPlace.tsx:52-54 | `nextStage` runs once, after the vortex timer |
| MiseEnPlaceScene.MiseEnPlace.ClickMoveToPrep | src/app/components/market/MiseEnPlace.tsx:204-212 | once the market is complete, the button advances the game one stage at once; the scene's timers are unaffected |
| MiseEnPlaceScene.MiseEnPlace.Teardown | src/app/components/market/MiseEnPlace.tsx:56-59 | both timers are cancelled |
| SimmerTimerScene.Speed | src/app/components/cook/SimmerTimer.tsx:21-22 | the multiplier for each heat level lies between 1 and 4.5 |
| SimmerTimerScene.Period | src/app/components/cook/SimmerTimer.tsx:21-22 | the period `1000 / multipliers[heat]` is positive and at most 1000 ms |
| SimmerTimerScene.PeriodByHeat | src/app/components/cook/SimmerTimer.tsx:21-44 | heat levels 0, 1 and 2 tick every 1000, 500 and 1000/4.5 ms, strictly faster with heat |
| SimmerTimerScene.Progress | src/app/components/cook/SimmerTimer.tsx:49 | the ring is in [0, 100]; it is 0 iff 30 steps are left and 100 iff none are left |
| SimmerTimerScene.ProgressMonotone | src/app/components/cook/SimmerTimer.tsx:49 | less time left means strictly more progress |
| SimmerTimerScene.SimmerTimer.constructor | src/app/components/cook/SimmerTimer.tsx:15-18 | 30 steps left, nothing prompted or finishing, ticking |
| SimmerTimerScene.SimmerTimer.Effect | src/app/components/cook/SimmerTimer.tsx:24-37 | prompts for rice once when ≤ 10 steps are left and rice has not started; at 0 it plays the success cue and schedules `onComplete`, guarded by `isFinishing` |
| SimmerTimerScene.SimmerTimer.Tick | src/app/components/cook/SimmerTimer.tsx:39-43 | time left drops by one, floored at 0, with a tick cue; then the effect runs |
| SimmerTimerScene.SimmerTimer.SetRiceStarted | src/app/components/cook/SimmerTimer.tsx:25-28 | a change of `riceStarted` re-runs the prompt check |
| SimmerTimerScene.SimmerTimer.SetHeat | src/app/components/cook/SimmerTimer.tsx:21-22 | heat takes one of the levels 0, 1, 2 |
| SimmerTimerScene.SimmerTimer.FireComplete | src/app/components/cook/SimmerTimer.tsx:34 | `onComplete` is called exactly once |
| SimmerTimerScene.SimmerTimer.Teardown | src/app/components/cook/SimmerTimer.tsx:46 | the interval stops, but the pending `onComplete` timeout is kept |

Every scene class has an invariant `Valid()` that each of its methods preserves. What it says
differs from class to class:

- `CookingStage`: progress is in [0, 100] and the heat is a slider value. The scene is complete
  exactly when progress is 100. The success cue has played once if complete and never otherwise.
  A pending advance implies complete and mounted.
- `RiceCooking`: the same as `CookingStage`. In addition, progress above 0 implies the rice was
  dropped, and the simmer sound has stopped exactly as often as the success cue played.
- `VirtualBlender`: progress is an even number in [0, 100]. Completion implies progress 100 and
  no blending, but progress can sit at 100 for one tick before completion. The success cue has
  played once if complete and never otherwise. A pending advance implies complete and mounted.
- `IngredientDrop`: there is no progress value, and completion is `droppedCount == 4`. The shown
  cubes have no duplicates, are a subset of the initial four, and together with the dropped count
  make at least four. A pending advance implies complete and mounted. The success cue is counted
  but not tied to completion. A fifth hit, on an id no longer shown, raises the count past 4 and
  undoes completion and the pending advance, as the source's derived `isComplete` does.
- `MiseEnPlace`: there is no progress value. The success cue has played once if complete, and the
  sweep cue once if transitioning. Each pending timer, and the transition, implies complete. A
  pending timer implies mounted. The vortex timer is pending only before the transition, and only
  while the advance timer is pending.
- `SimmerTimer`: time left is in [0, 30] and heat in 0..2. The rice prompt and the completion each
  happen at most once. The prompt happens only at 10 steps left or fewer, and it has happened once
  that point is reached without rice. The scene is finishing exactly when no time is left. Calls
  of `onComplete`, plus a still-pending one, equal the success cues.

## Left out

- Audio cues, haptics, particles, animations, fonts and the Next.js shell are left out. A cue is
  modelled only as a counter of how often it played. RiceCooking's `simmerStops` counts only the
  stop in the completing tick (RiceCooking.tsx:72). The completion effect stops the simmer again
  (RiceCooking.tsx:55), and so does its cleanup (RiceCooking.tsx:59). Those repeat calls are not
  counted.
- The random haptic pulses in the simmer and rice ticks (`Math.random`) are left out.
- The screen wake lock and the `data-theme` attribute written by the save effect are left out.
  So is `useGame`'s error outside a provider. These are browser APIs or plumbing with no state of
  the game.
- The presentation-only scenes (Hero, LandingPortal, GrandReveal) and the helper components are left
  out. IngredientCard is also left out: its only rule is that hover discovers lore at window
  widths of 768 or more.
- The `audio started` flags (`hasStartedAudio`, `ensureAudio`) are left out, because they only
  gate sound.
- Storage is the value `Stored`, not JSON text in `localStorage`. A snapshot field of the wrong
  JSON type (for example a number where an array belongs) is not representable.
- Wall-clock time is not modelled. Timers are explicit calls, and the delays appear only as
  constants. The vortex timer is assumed to fire before the advance timer in the market.
- Unmounting is delayed and effects re-run in between. GameManager keeps the old scene mounted
  through its exit animation (`AnimatePresence mode="wait"`, GameManager.tsx:55-58). During that
  time `nextStage` has a new identity, so each scene's advance effect, and the market's
  success-and-timers effect, re-runs its cleanup and body. This can replay the success cue and
  reschedule the timers until the exit finishes. The model goes straight from the stage change to
  `Teardown`, so its one-success-cue invariant and `Reconcile`'s single remount do not cover that
  interval.
- HeatProgress.Step uses real arithmetic, not IEEE doubles. The tick bounds in
  `CompletesWithin2000Ticks` and `CompletesWithin1250Ticks` hold for the real-number model only.
- CookingStageScene.CompletesWithin2000Ticks: the bound holds in real arithmetic, where heat 10 adds
  exactly 0.05 per tick. In IEEE doubles the 2000 rounded additions can end just below 100, so the
  source may need a 2001st tick.
- RiceCookingScene.CompletesWithin1250Ticks: the bound holds in real arithmetic, where heat 10 adds
  exactly 0.08 per tick. In IEEE doubles the 1250 rounded additions can end just below 100, so the
  source may need a 1251st tick.
- React closure and batching effects are not modelled. For example, IngredientDrop's success check
  reads the `droppedCount` of the render that created the handler, and the model uses the current
  count.
- IngredientDropScene.IngredientDrop.DragEnd accepts any cube id, as the source does. It keeps
  shown + dropped == 4 only for a cube that is still shown, which is the only kind the UI lets
  the player drag.
- CookingStageScene.CookingStage.SetHeat, RiceCookingScene.RiceCooking.SetHeat and
  SimmerTimerScene.SimmerTimer.SetHeat require a value in the control's range. The slider and the
  `heat: 0, 1, 2` prop cannot produce anything else, and `multipliers[heat]` would be undefined
  outside 0–2.
