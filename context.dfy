/** The shared game state of one browser tab (src/lib/context.tsx): the stage
    sequencer, the two id lists, serving size, theme, and the snapshot kept in
    client-local storage. */
module Context {
  import opened Wrappers
  import opened Lists

  // ---------------------------------------------------------------------------
  // Stages
  // ---------------------------------------------------------------------------

  datatype Stage = Landing | Intro | Market | Blender | Simmer | BeefDrop | RiceCook | Reveal

  /** `STAGES`: the fixed order in which the experience is played. */
  const Stages: seq<Stage> := [Landing, Intro, Market, Blender, Simmer, BeefDrop, RiceCook, Reveal]

  /** The string the source uses for a stage, as stored in the snapshot and used as the scene key. */
  function Name(s: Stage): (n: string)
    ensures |n| >= 5
    ensures forall k :: 0 <= k < |n| ==> 'A' <= n[k] <= 'Z' || n[k] == '_'
  {
    match s
    case Landing => "LANDING"
    case Intro => "INTRO"
    case Market => "MARKET"
    case Blender => "BLENDER"
    case Simmer => "SIMMER"
    case BeefDrop => "BEEF_DROP"
    case RiceCook => "RICE_COOK"
    case Reveal => "REVEAL"
  }

  /** Distinct stages have distinct strings, so the stored string identifies the stage. */
  lemma NameInjective(s: Stage, t: Stage)
    ensures Name(s) == Name(t) <==> s == t
  {
  }

  /** `STAGES.indexOf(s)`; every stage is listed, so the index is never -1. */
  function Position(s: Stage): (i: nat)
    ensures i < |Stages| && Stages[i] == s
  {
    match s
    case Landing => 0
    case Intro => 1
    case Market => 2
    case Blender => 3
    case Simmer => 4
    case BeefDrop => 5
    case RiceCook => 6
    case Reveal => 7
  }

  /** `Position` inverts indexing into `Stages`. */
  lemma PositionOfIndex(i: nat)
    requires i < |Stages|
    ensures Position(Stages[i]) == i
  {
  }

  /** `nextStage`: the stage after `s`, or `s` itself at REVEAL. */
  function Next(s: Stage): (t: Stage)
    ensures s == Reveal ==> t == Reveal
    ensures s != Reveal ==> Position(t) == Position(s) + 1
  {
    var i := Position(s);
    if i < |Stages| - 1 then
      PositionOfIndex(i + 1);
      Stages[i + 1]
    else s
  }

  /** `prevStage`: the stage before `s`, or `s` itself at LANDING. */
  function Prev(s: Stage): (t: Stage)
    ensures s == Landing ==> t == Landing
    ensures s != Landing ==> Position(t) == Position(s) - 1
  {
    var i := Position(s);
    if i > 0 then
      PositionOfIndex(i - 1);
      Stages[i - 1]
    else s
  }

  /** Retreating undoes advancing everywhere but at REVEAL, and advancing undoes retreating everywhere but at LANDING. */
  lemma PrevUndoesNext(s: Stage)
    ensures s != Reveal ==> Prev(Next(s)) == s
    ensures s != Landing ==> Next(Prev(s)) == s
  {
  }

  function Min(a: int, b: int): (m: int) { if a <= b then a else b }
  function Max(a: int, b: int): (m: int) { if a >= b then a else b }

  /** `n` consecutive `nextStage` calls. */
  function Advance(s: Stage, n: nat): (t: Stage)
    decreases n
  {
    if n == 0 then s else Advance(Next(s), n - 1)
  }

  /** `n` consecutive `prevStage` calls. */
  function Retreat(s: Stage, n: nat): (t: Stage)
    decreases n
  {
    if n == 0 then s else Retreat(Prev(s), n - 1)
  }

  /** Advancing `n` times moves `n` places along `STAGES`, saturating at REVEAL. */
  lemma {:induction false} AdvancePosition(s: Stage, n: nat)
    ensures Position(Advance(s, n)) == Min(Position(s) + n, |Stages| - 1)
    decreases n
  {
    if n > 0 {
      AdvancePosition(Next(s), n - 1);
    }
  }

  /** Retreating `n` times moves `n` places back along `STAGES`, saturating at LANDING. */
  lemma {:induction false} RetreatPosition(s: Stage, n: nat)
    ensures Position(Retreat(s, n)) == Max(Position(s) - n, 0)
    decreases n
  {
    if n > 0 {
      RetreatPosition(Prev(s), n - 1);
    }
  }

  /** From LANDING, the k-th `nextStage` call lands on `STAGES[k]`; from the seventh on, the stage is REVEAL. */
  lemma WalkFromLanding(n: nat)
    ensures n < |Stages| ==> Advance(Landing, n) == Stages[n]
    ensures n >= |Stages| - 1 ==> Advance(Landing, n) == Reveal
  {
    AdvancePosition(Landing, n);
  }

  // ---------------------------------------------------------------------------
  // Id lists: `[...new Set([...prev, id])]`
  // ---------------------------------------------------------------------------

  /** `[...new Set(s)]`: each distinct element once, in order of first occurrence. */
  function Distinct(s: seq<string>): (d: seq<string>)
    ensures NoDup(d)
    ensures forall x :: x in d <==> x in s
    ensures forall i, j :: 0 <= i < j < |d| ==> FirstIndex(s, d[i]) < FirstIndex(s, d[j])
  {
    if s == [] then []
    else
      var init := s[..|s| - 1];
      var last := s[|s| - 1];
      assert s == init + [last];
      var d := Distinct(init);
      FirstIndexAppend(init, last);
      if last in d then d else d + [last]
  }

  /** A list without duplicates is its own `Distinct`. */
  lemma {:induction false} DistinctOfNoDup(s: seq<string>)
    requires NoDup(s)
    ensures Distinct(s) == s
  {
    if s != [] {
      var init := s[..|s| - 1];
      assert NoDup(init);
      DistinctOfNoDup(init);
      assert s[|s| - 1] !in init;
      assert s == init + [s[|s| - 1]];
    }
  }

  /** `addIngredient` / `discoverLore` on the list `l` with the id `x`. */
  function AddUnique(l: seq<string>, x: string): (r: seq<string>)
    ensures NoDup(r) && x in r
    ensures forall y :: y in r <==> y in l || y == x
  {
    Distinct(l + [x])
  }

  /** The existing items keep their first-occurrence order and `x` is appended only if absent. */
  lemma AddUniqueOrder(l: seq<string>, x: string)
    ensures AddUnique(l, x) == if x in l then Distinct(l) else Distinct(l) + [x]
    ensures NoDup(l) ==> AddUnique(l, x) == if x in l then l else l + [x]
  {
    assert (l + [x])[..|l + [x]| - 1] == l;
    if NoDup(l) {
      DistinctOfNoDup(l);
    }
  }

  /** Adding the same id twice is the same as adding it once. */
  lemma AddUniqueIdempotent(l: seq<string>, x: string)
    ensures AddUnique(AddUnique(l, x), x) == AddUnique(l, x)
  {
    var once := AddUnique(l, x);
    AddUniqueOrder(once, x);
  }

  // ---------------------------------------------------------------------------
  // Theme
  // ---------------------------------------------------------------------------

  datatype Theme = Dark | Light

  /** `toggleTheme`'s updater: dark becomes light and anything else becomes dark. */
  function Toggled(t: Theme): (u: Theme)
    ensures u != t
  {
    if t == Dark then Light else Dark
  }

  /** Toggling twice restores the theme. */
  lemma ToggleTwice(t: Theme)
    ensures Toggled(Toggled(t)) == t
  {
  }

  // ---------------------------------------------------------------------------
  // Snapshot
  // ---------------------------------------------------------------------------

  /** The five user-visible fields of the provider. */
  datatype Fields = Fields(stage: Stage, ingredients: seq<string>, servingSize: int, theme: Theme, lore: seq<string>)

  /** The initial `useState` values. */
  const Defaults := Fields(Landing, [], 8, Dark, [])

  /** The parsed storage entry; `None` is a field that is missing or null, hence falsy. */
  datatype Snapshot = Snapshot(
    stage: Option<string>,
    ingredients: Option<seq<string>>,
    size: Option<int>,
    theme: Option<Theme>,
    lore: Option<seq<string>>)

  /** The storage slot: no entry (or an empty string), text that does not parse, or a parsed snapshot. */
  datatype Stored = Empty | Unparsable | Parsed(snapshot: Snapshot)

  /** The save effect: every field written, under the source's key names. */
  function Encode(f: Fields): (snap: Snapshot)
    ensures snap.stage == Some(Name(f.stage))
    ensures snap.ingredients == Some(f.ingredients) && snap.size == Some(f.servingSize)
    ensures snap.theme == Some(f.theme) && snap.lore == Some(f.lore)
  {
    Snapshot(Some(Name(f.stage)), Some(f.ingredients), Some(f.servingSize), Some(f.theme), Some(f.lore))
  }

  /** The save loses nothing: distinct states are written as distinct snapshots. */
  lemma EncodeInjective(f: Fields, g: Fields)
    ensures Encode(f) == Encode(g) <==> f == g
  {
    if Encode(f) == Encode(g) {
      NameInjective(f.stage, g.stage);
    }
  }

  /** The load effect applied to the defaults: each field is restored independently when present and
      truthy (an array or a theme is always truthy, a size only when nonzero); the stage never is. */
  function Hydrate(stored: Stored): (f: Fields)
    ensures f.stage == Landing
    ensures !stored.Parsed? ==> f == Defaults
    ensures stored.Parsed? ==>
      var snap := stored.snapshot;
      && f.ingredients == (if snap.ingredients.Some? then snap.ingredients.value else [])
      && f.servingSize == (if snap.size.Some? && snap.size.value != 0 then snap.size.value else 8)
      && f.theme == (if snap.theme.Some? then snap.theme.value else Dark)
      && f.lore == (if snap.lore.Some? then snap.lore.value else [])
  {
    match stored
    case Parsed(snap) =>
      var f := Defaults;
      var f := if snap.ingredients.Some? then f.(ingredients := snap.ingredients.value) else f;
      var f := if snap.size.Some? && snap.size.value != 0 then f.(servingSize := snap.size.value) else f;
      var f := if snap.theme.Some? then f.(theme := snap.theme.value) else f;
      if snap.lore.Some? then f.(lore := snap.lore.value) else f
    case _ => Defaults
  }

  /** Saving and reloading restores every field except the stage, which restarts at LANDING, and a
      serving size of 0, which reloads as 8. */
  lemma ReloadAfterSave(f: Fields)
    ensures Hydrate(Parsed(Encode(f))).stage == Landing
    ensures Hydrate(Parsed(Encode(f))) ==
      f.(stage := Landing, servingSize := if f.servingSize == 0 then 8 else f.servingSize)
    ensures Hydrate(Parsed(Encode(f))) == f <==> f.stage == Landing && f.servingSize != 0
  {
  }

  /** A snapshot that holds only a light theme reloads as the defaults with the light theme. */
  lemma ThemeOnlySnapshot()
    ensures Hydrate(Parsed(Snapshot(None, None, None, Some(Light), None))) == Defaults.(theme := Light)
  {
  }

  // ---------------------------------------------------------------------------
  // The provider
  // ---------------------------------------------------------------------------

  /** `GameProvider`: five state hooks and the storage slot. Each mutation is followed by the save
      effect, so after every method the slot holds the snapshot of the current fields. */
  class GameState {
    var stage: Stage
    var ingredients: seq<string>
    var servingSize: int
    var theme: Theme
    var lore: seq<string>
    var storage: Stored

    function Current(): (f: Fields)
      reads this
    {
      Fields(stage, ingredients, servingSize, theme, lore)
    }

    /** The slot mirrors the fields. */
    ghost predicate Valid()
      reads this
    {
      storage == Parsed(Encode(Current()))
    }

    /** Mounting the provider: defaults, then the load effect, then the save effect. */
    constructor (stored: Stored)
      ensures Current() == Hydrate(stored)
      ensures Valid()
    {
      var f := Hydrate(stored);
      stage, ingredients, servingSize, theme, lore := f.stage, f.ingredients, f.servingSize, f.theme, f.lore;
      storage := Parsed(Encode(f));
    }

    /** The save effect: writes `{stage, ingredients, size, theme, lore}` from the current fields. */
    method Save()
      modifies this`storage
      ensures storage == Parsed(Snapshot(Some(Name(stage)), Some(ingredients), Some(servingSize), Some(theme), Some(lore)))
      ensures Valid()
    {
      storage := Parsed(Encode(Current()));
    }

    /** `setStage`: any stage, no check. */
    method SetStage(s: Stage)
      modifies this
      ensures Current() == old(Current()).(stage := s)
      ensures Valid()
    {
      stage := s;
      Save();
    }

    method NextStage()
      modifies this
      ensures Current() == old(Current()).(stage := Next(old(stage)))
      ensures Valid()
    {
      stage := Next(stage);
      Save();
    }

    method PrevStage()
      modifies this
      ensures Current() == old(Current()).(stage := Prev(old(stage)))
      ensures Valid()
    {
      stage := Prev(stage);
      Save();
    }

    method AddIngredient(id: string)
      modifies this
      ensures Current() == old(Current()).(ingredients := AddUnique(old(ingredients), id))
      ensures Valid()
    {
      ingredients := AddUnique(ingredients, id);
      Save();
    }

    method DiscoverLore(id: string)
      modifies this
      ensures Current() == old(Current()).(lore := AddUnique(old(lore), id))
      ensures Valid()
    {
      lore := AddUnique(lore, id);
      Save();
    }

    /** `setServingSize`: any number, no bounds. */
    method SetServingSize(n: int)
      modifies this
      ensures Current() == old(Current()).(servingSize := n)
      ensures Valid()
    {
      servingSize := n;
      Save();
    }

    /** `resetGame`: stage INTRO, no ingredients, size 8; theme and lore are kept. The entry it
        removes is written again by the save effect that the changed fields trigger. */
    method ResetGame()
      modifies this
      ensures Current() == Fields(Intro, [], 8, old(theme), old(lore))
      ensures Valid()
    {
      stage := Intro;
      ingredients := [];
      servingSize := 8;
      storage := Empty;
      Save();
    }

    method ToggleTheme()
      modifies this
      ensures Current() == old(Current()).(theme := Toggled(old(theme)))
      ensures Valid()
    {
      theme := Toggled(theme);
      Save();
    }
  }
}
