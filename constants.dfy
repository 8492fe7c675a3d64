/** The fixed ingredient catalog of the market (src/lib/constants.ts). */
module Constants {
  import opened Wrappers
  import opened Lists

  /** One catalog record; `caption` is the source's `label` (a reserved word in Dafny). */
  datatype Ingredient = Ingredient(id: string, caption: string, icon: string, color: string)

  /** The catalog, in the order the market shelf shows it. */
  const Ingredients: seq<Ingredient> := [
    Ingredient("beef", "Beef Cubes", "\U{1F969}", "#FF4500"),
    Ingredient("oil_veg", "Vegetable Oil", "\U{1FAD7}", "#FFD700"),
    Ingredient("onion", "Chopped Onions", "\U{1F9C5}", "#F8F9FA"),
    Ingredient("maggi", "Maggi Cubes", "\U{1F9C2}", "#FFB800"),
    Ingredient("eggplant", "Garden Eggs", "\U{1F346}", "#C19A6B"),
    Ingredient("fish", "Smoked Fish", "\U{1F41F}", "#0072C6"),
    Ingredient("pepper", "Chili Peppers", "\U{1F336}\U{FE0F}", "#FF4500"),
    Ingredient("peanut", "Peanut Paste", "\U{1F95C}", "#D2691E"),
    Ingredient("palm_oil", "Red Palm Oil", "\U{1F3FA}", "#FF4500"),
    Ingredient("cassava", "Cassava Leaves", "\U{1F33F}", "#1EB53A"),
    Ingredient("water", "Pure Water", "\U{1F4A7}", "#00F3FF")
  ]

  /** The ids of a list of records, position by position. */
  function Ids(cat: seq<Ingredient>): (ids: seq<string>)
    ensures |ids| == |cat|
    ensures forall i :: 0 <= i < |cat| ==> ids[i] == cat[i].id
  {
    seq(|cat|, i requires 0 <= i < |cat| => cat[i].id)
  }

  /** The catalog has eleven records with pairwise distinct ids, "beef" first and "water" last. */
  lemma CatalogShape()
    ensures |Ingredients| == 11
    ensures NoDup(Ids(Ingredients)) && NoDup(Ingredients)
    ensures Ingredients[0].id == "beef" && Ingredients[|Ingredients| - 1].id == "water"
  {
    var ids := Ids(Ingredients);
    var literal := ["beef", "oil_veg", "onion", "maggi", "eggplant", "fish",
                    "pepper", "peanut", "palm_oil", "cassava", "water"];
    assert NoDup(literal);
    assert forall i :: 0 <= i < |ids| ==> ids[i] == literal[i];
  }

  /** `INGREDIENTS.find(i => i.id === id)`: the first record carrying `id`, if any. */
  function Find(cat: seq<Ingredient>, id: string): (r: Option<Ingredient>)
    ensures r.Some? ==> r.value in cat && r.value.id == id
    ensures r.None? <==> forall i :: 0 <= i < |cat| ==> cat[i].id != id
    ensures forall k :: 0 <= k < |cat| && cat[k].id == id && (forall j :: 0 <= j < k ==> cat[j].id != id) ==>
      r == Some(cat[k])
  {
    if cat == [] then None
    else if cat[0].id == id then Some(cat[0])
    else Find(cat[1..], id)
  }

  /** Looking up any catalog id yields exactly the record at that position. */
  lemma {:induction false} FindCatalogId(k: nat)
    requires k < |Ingredients|
    ensures Find(Ingredients, Ingredients[k].id) == Some(Ingredients[k])
  {
    CatalogShape();
    FindUnique(Ingredients, k);
  }

  lemma {:induction false} FindUnique(cat: seq<Ingredient>, k: nat)
    requires k < |cat| && NoDup(Ids(cat))
    ensures Find(cat, cat[k].id) == Some(cat[k])
  {
    if k > 0 {
      var ids := Ids(cat);
      assert ids[0] != ids[k];
      assert Ids(cat[1..]) == ids[1..];
      FindUnique(cat[1..], k - 1);
    }
  }
}
