/** The material price list of the administration page: the stored price map
    becomes an editable list, and saving turns the list back into a map. */
module AdminPricing {
  import opened Common
  import opened Text
  import opened Lists

  datatype Material = Material(id: string, name: string, price: real, enabled: bool)

  /** `materialPrices` as `Object.entries` lists it: (key, price) pairs in
      the object's enumeration order. */
  type PriceEntries = seq<(string, real)>

  /** The pricing configuration the server returns; absent fields are `None`. */
  datatype PricingData = PricingData(materialPrices: Option<PriceEntries>, timeRate: Option<JsNumber>)

  datatype PageState = PageState(materials: seq<Material>, timeRate: real)

  /** The time rate the page starts with. */
  const DefaultTimeRate: real := 150.0

  function InitialState(): PageState
  {
    PageState([], DefaultTimeRate)
  }

  /** Each entry becomes an enabled material named after its upper-cased key. */
  function LoadMaterials(es: PriceEntries): seq<Material>
  {
    seq(|es|, k requires 0 <= k < |es| => Material(es[k].0, Upper(es[k].0), es[k].1, true))
  }

  /** `data.timeRate || 150`: absent, NaN and 0 give the default. */
  function TimeRateOr150(t: Option<JsNumber>): (r: real)
    ensures r != 0.0
    ensures t.Some? && t.value.Finite? && t.value.v != 0.0 ==> r == t.value.v
  {
    if t.Some? && t.value.Finite? && t.value.v != 0.0 then t.value.v else DefaultTimeRate
  }

  /** `loadConfig`: a null response leaves the page as it was. */
  function LoadConfig(data: Option<PricingData>, st: PageState): (r: PageState)
    ensures data.None? ==> r == st
    ensures data.Some? ==> r.timeRate == TimeRateOr150(data.value.timeRate) != 0.0
    ensures data.Some? && data.value.materialPrices.None? ==> r.materials == []
    ensures data.Some? && data.value.materialPrices.Some? ==>
      r.materials == LoadMaterials(data.value.materialPrices.value)
  {
    match data
    case None => st
    case Some(d) =>
      var es := if d.materialPrices.Some? then d.materialPrices.value else [];
      PageState(LoadMaterials(es), TimeRateOr150(d.timeRate))
  }

  /** Loading keeps every entry, in order, under its own key, named after
      the upper-cased key. */
  lemma LoadMaterialsShape(es: PriceEntries)
    ensures |LoadMaterials(es)| == |es|
    ensures forall k :: 0 <= k < |es| ==>
      var m := LoadMaterials(es)[k]; m.id == es[k].0 && m.name == Upper(es[k].0) && m.price == es[k].1 && m.enabled
  {
  }

  /** Only named, enabled materials are saved. */
  predicate Saved(m: Material)
  {
    m.name != "" && m.enabled
  }

  /** The map key of a material name: lower case, whitespace runs turned into
      one `_`. */
  function SaveKey(name: string): (key: string)
    ensures forall k | 0 <= k < |key| :: !IsSpace(key[k])
    ensures |name| > 0 ==> |key| > 0
    ensures (forall k | 0 <= k < |name| :: !IsSpace(name[k])) ==> key == Lower(name)
  {
    ReplaceSpaceRuns(Lower(name), '_')
  }

  /** Names that differ only in the case of their letters share a key. */
  lemma SaveKeyIgnoresCase(name: string)
    ensures SaveKey(Lower(name)) == SaveKey(name)
  {
    assert Lower(Lower(name)) == Lower(name);
  }

  /** Each maximal run of white space in a name becomes one `_` of the key,
      and the words around it are keyed on their own. */
  lemma SaveKeySplit(a: string, ws: string, b: string)
    requires a == [] || !IsSpace(a[|a| - 1])
    requires ws != [] && forall k | 0 <= k < |ws| :: IsSpace(ws[k])
    requires b == [] || !IsSpace(b[0])
    ensures SaveKey(a + ws + b) == SaveKey(a) + "_" + SaveKey(b)
  {
    assert Lower(a + ws + b) == Lower(a) + Lower(ws) + Lower(b);
    ReplaceSpaceRunsSplit(Lower(a), Lower(ws), Lower(b), '_');
  }

  /** The map `handleSave` builds: materials assigned in list order, so a later
      material overwrites an earlier one with the same key. */
  function SavedPrices(ms: seq<Material>): map<string, real>
  {
    if ms == [] then map[]
    else
      var prev := SavedPrices(ms[..|ms| - 1]);
      var m := ms[|ms| - 1];
      if Saved(m) then prev[SaveKey(m.name) := m.price] else prev
  }

  /** `handleSave`'s conversion loop. */
  method SaveMaterialPrices(ms: seq<Material>) returns (prices: map<string, real>)
    ensures prices == SavedPrices(ms)
  {
    prices := map[];
    var i := 0;
    while i < |ms|
      invariant 0 <= i <= |ms|
      invariant prices == SavedPrices(ms[..i])
    {
      var m := ms[i];
      assert ms[..i + 1][..i] == ms[..i];
      if m.name != "" && m.enabled {
        var key := ReplaceSpaceRuns(Lower(m.name), '_');
        prices := prices[key := m.price];
      }
      i := i + 1;
    }
    assert ms[..|ms|] == ms;
  }

  /** A key is saved exactly when some named, enabled material produces it. */
  lemma {:induction false} SavedKeys(ms: seq<Material>, key: string)
    ensures key in SavedPrices(ms) <==> exists i :: 0 <= i < |ms| && Saved(ms[i]) && SaveKey(ms[i].name) == key
  {
    if ms != [] {
      var init := ms[..|ms| - 1];
      SavedKeys(init, key);
      if exists i :: 0 <= i < |init| && Saved(init[i]) && SaveKey(init[i].name) == key {
        var i :| 0 <= i < |init| && Saved(init[i]) && SaveKey(init[i].name) == key;
        assert ms[i] == init[i];
      }
      if exists i :: 0 <= i < |ms| && Saved(ms[i]) && SaveKey(ms[i].name) == key {
        var i :| 0 <= i < |ms| && Saved(ms[i]) && SaveKey(ms[i].name) == key;
        if i < |ms| - 1 {
          assert init[i] == ms[i];
        }
      }
    }
  }

  /** The saved price of a key is the price of the last named, enabled
      material that produces it. */
  lemma {:induction false} LastMaterialWins(ms: seq<Material>, i: nat)
    requires i < |ms| && Saved(ms[i])
    requires forall j :: i < j < |ms| && Saved(ms[j]) ==> SaveKey(ms[j].name) != SaveKey(ms[i].name)
    ensures SaveKey(ms[i].name) in SavedPrices(ms)
    ensures SavedPrices(ms)[SaveKey(ms[i].name)] == ms[i].price
  {
    var init := ms[..|ms| - 1];
    if i < |ms| - 1 {
      LastMaterialWins(init, i);
    }
  }

  /** The map of the price entries, a later entry overwriting an earlier one. */
  function EntriesMap(es: PriceEntries): map<string, real>
  {
    if es == [] then map[] else EntriesMap(es[..|es| - 1])[es[|es| - 1].0 := es[|es| - 1].1]
  }

  /** A key the save conversion leaves as it is: non-empty, without ASCII
      capitals and without whitespace. */
  predicate CanonicalKey(key: string)
  {
    key != []
    && (forall k | 0 <= k < |key| :: !('A' <= key[k] <= 'Z'))
    && (forall k | 0 <= k < |key| :: !IsSpace(key[k]))
  }

  lemma CanonicalKeyIsFixed(key: string)
    requires CanonicalKey(key)
    ensures SaveKey(Upper(key)) == key
  {
    LowerOfUpper(key);
  }

  /** Loading a price map with canonical keys and saving it unchanged gives
      the same map back. */
  lemma {:induction false} LoadThenSave(es: PriceEntries)
    requires forall k | 0 <= k < |es| :: CanonicalKey(es[k].0)
    ensures SavedPrices(LoadMaterials(es)) == EntriesMap(es)
  {
    if es != [] {
      var init := es[..|es| - 1];
      assert LoadMaterials(es)[..|es| - 1] == LoadMaterials(init);
      LoadThenSave(init);
      CanonicalKeyIsFixed(es[|es| - 1].0);
    }
  }

  /** The material `addMaterial` appends; `now` stands for `Date.now()`. */
  function NewMaterial(now: nat): Material
  {
    Material("material_" + NatToString(now), "", 0.0, true)
  }

  function AddMaterial(ms: seq<Material>, now: nat): (r: seq<Material>)
    ensures |r| == |ms| + 1 && r[..|ms|] == ms
    ensures r[|ms|].name == "" && r[|ms|].price == 0.0 && r[|ms|].enabled
  {
    ms + [NewMaterial(now)]
  }

  /** A freshly added material has no name yet, so saving ignores it. */
  lemma AddedMaterialNotSaved(ms: seq<Material>, now: nat)
    ensures SavedPrices(AddMaterial(ms, now)) == SavedPrices(ms)
  {
    assert AddMaterial(ms, now)[..|ms|] == ms;
  }

  /** One field assignment `{ ...mat, [field]: value }`. */
  datatype MaterialEdit =
    | SetId(id: string)
    | SetName(name: string)
    | SetPrice(price: real)
    | SetEnabled(enabled: bool)

  /** The material with one field replaced; every other field is kept. */
  function ApplyMaterialEdit(m: Material, e: MaterialEdit): (r: Material)
    ensures r.id == if e.SetId? then e.id else m.id
    ensures r.name == if e.SetName? then e.name else m.name
    ensures r.price == if e.SetPrice? then e.price else m.price
    ensures r.enabled == if e.SetEnabled? then e.enabled else m.enabled
  {
    match e
    case SetId(v) => m.(id := v)
    case SetName(v) => m.(name := v)
    case SetPrice(v) => m.(price := v)
    case SetEnabled(v) => m.(enabled := v)
  }

  function UpdateMaterial(ms: seq<Material>, index: int, e: MaterialEdit): seq<Material>
  {
    UpdateAt(ms, index, (m: Material) => ApplyMaterialEdit(m, e))
  }

  /** `updateMaterial` changes one field of material `index` and nothing else. */
  lemma UpdateMaterialOnlyTouchesIndex(ms: seq<Material>, index: int, e: MaterialEdit)
    ensures |UpdateMaterial(ms, index, e)| == |ms|
    ensures 0 <= index < |ms| ==>
      UpdateMaterial(ms, index, e) == ms[..index] + [ApplyMaterialEdit(ms[index], e)] + ms[index + 1..]
    ensures !(0 <= index < |ms|) ==> UpdateMaterial(ms, index, e) == ms
  {
    UpdateAtSplit(ms, index, (m: Material) => ApplyMaterialEdit(m, e));
  }

  function DeleteMaterial(ms: seq<Material>, index: int): seq<Material>
  {
    WithoutIndex(ms, index)
  }

  /** `deleteMaterial` removes exactly material `index` and keeps the others
      in order. */
  lemma DeleteMaterialRemovesIndex(ms: seq<Material>, index: int)
    ensures 0 <= index < |ms| ==> DeleteMaterial(ms, index) == ms[..index] + ms[index + 1..]
    ensures 0 <= index < |ms| ==> |DeleteMaterial(ms, index)| == |ms| - 1
    ensures !(0 <= index < |ms|) ==> DeleteMaterial(ms, index) == ms
  {
    WithoutIndexSplit(ms, index);
  }
}
