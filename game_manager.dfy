/** Which scene is on screen for the current stage (src/app/components/shared/GameManager.tsx). */
module GameManager {
  import opened Context

  datatype Scene =
    | LandingPortal | Hero | MiseEnPlace | VirtualBlender
    | CookingStage | IngredientDrop | RiceCooking | GrandReveal

  /** `renderStage`: the switch on the stage string, with LANDING's scene as the default. */
  function SceneFor(key: string): (sc: Scene)
    ensures sc == LandingPortal || key == Name(StageOf(sc))
  {
    if key == "LANDING" then LandingPortal
    else if key == "INTRO" then Hero
    else if key == "MARKET" then MiseEnPlace
    else if key == "BLENDER" then VirtualBlender
    else if key == "SIMMER" then CookingStage
    else if key == "BEEF_DROP" then IngredientDrop
    else if key == "RICE_COOK" then RiceCooking
    else if key == "REVEAL" then GrandReveal
    else LandingPortal
  }

  /** The scene rendered for a stage of the game. */
  function RenderStage(s: Stage): (sc: Scene)
    ensures StageOf(sc) == s
  {
    SceneFor(Name(s))
  }

  /** The stage whose scene this is; the reference against which the switch is checked. */
  function StageOf(sc: Scene): (s: Stage) {
    match sc
    case LandingPortal => Landing
    case Hero => Intro
    case MiseEnPlace => Market
    case VirtualBlender => Blender
    case CookingStage => Simmer
    case IngredientDrop => BeefDrop
    case RiceCooking => RiceCook
    case GrandReveal => Reveal
  }

  /** Every stage renders its own scene: `StageOf` undoes `RenderStage`, so distinct stages render
      distinct scenes, and every scene is rendered by some stage. */
  lemma RenderStageInjective(s: Stage, t: Stage, sc: Scene)
    ensures StageOf(RenderStage(s)) == s
    ensures RenderStage(StageOf(sc)) == sc
    ensures s != t ==> RenderStage(s) != RenderStage(t)
  {
  }

  /** A key that names none of the eight stages falls back to the landing portal. */
  lemma UnknownKeyFallsBack(key: string)
    requires forall s: Stage :: key != Name(s)
    ensures SceneFor(key) == LandingPortal
  {
    assert key != Name(Landing) && key != Name(Intro) && key != Name(Market) && key != Name(Blender);
    assert key != Name(Simmer) && key != Name(BeefDrop) && key != Name(RiceCook) && key != Name(Reveal);
  }

  /** The scene container on screen: its React key, the scene it renders, and which instance it is. */
  datatype Mounted = Mounted(key: Stage, scene: Scene, instance: nat)

  /** Re-rendering for `s`: the container is keyed by the stage, so a different stage mounts a fresh
      instance (the old one leaves once its exit animation ends); the same stage keeps the instance. */
  function Reconcile(m: Mounted, s: Stage): (r: Mounted)
    ensures r.key == s && r.scene == RenderStage(s)
    ensures (r.instance == m.instance) <==> (s == m.key)
  {
    if s == m.key then m.(scene := RenderStage(s)) else Mounted(s, RenderStage(s), m.instance + 1)
  }
}
