/** ShopItem: a purchasable object that lights up while the player aims at it, either by adding
    an overlay material to each of its renderers or, as a fallback, by turning on the emission of
    its materials. */
module ShopHighlight {

  datatype Color = Color(r: real, g: real, b: real, a: real)

  /** `Color.black`. */
  const Black := Color(0.0, 0.0, 0.0, 1.0)

  /** `Color * float`: every component, alpha included, is scaled. */
  function ScaleColor(c: Color, k: real): Color
  {
    Color(c.r * k, c.g * k, c.b * k, c.a * k)
  }

  /** A material's emission state: the `_EMISSION` keyword and the `_EmissionColor` value. */
  class Material {
    var emissionOn: bool
    var emissionColor: Color

    constructor ()
      ensures !emissionOn && emissionColor == Black
    {
      emissionOn := false;
      emissionColor := Black;
    }
  }

  /** A renderer and its list of materials (null slots allowed). */
  class Renderer {
    var materials: seq<Material?>

    constructor (materials: seq<Material?>)
      ensures this.materials == materials
    {
      this.materials := materials;
    }
  }

  /** Array.FindIndex for the overlay: the first slot holding it, or -1. */
  function IndexOf(mats: seq<Material?>, o: Material): (k: int)
    ensures -1 <= k < |mats|
    ensures k == -1 <==> o !in mats
    ensures k >= 0 ==> mats[k] == o && forall j :: 0 <= j < k ==> mats[j] != o
  {
    if mats == [] then -1
    else if mats[0] == o then 0
    else
      var k := IndexOf(mats[1..], o);
      if k == -1 then -1 else k + 1
  }

  /** Highlighting on: the overlay is appended at the end when the list does not have it. */
  function WithOverlay(mats: seq<Material?>, o: Material): (r: seq<Material?>)
    ensures o in r
    ensures o in mats ==> r == mats
    ensures multiset(r)[o] == if o in mats then multiset(mats)[o] else 1
  {
    if IndexOf(mats, o) >= 0 then mats else mats + [o]
  }

  /** Highlighting off: only the first occurrence of the overlay is removed. */
  function WithoutFirst(mats: seq<Material?>, o: Material): (r: seq<Material?>)
    ensures o !in mats ==> r == mats
    ensures multiset(r) == multiset(mats) - multiset{o}
    ensures o in mats ==> |r| == |mats| - 1
  {
    var k := IndexOf(mats, o);
    if k < 0 then mats
    else
      assert mats == mats[..k] + [mats[k]] + mats[k + 1..];
      mats[..k] + mats[k + 1..]
  }

  /** The materials other than the overlay, in their order. */
  function Others(mats: seq<Material?>, o: Material): seq<Material?>
  {
    if mats == [] then [] else (if mats[0] == o then [] else [mats[0]]) + Others(mats[1..], o)
  }

  lemma {:induction false} OthersConcat(a: seq<Material?>, b: seq<Material?>, o: Material)
    ensures Others(a + b, o) == Others(a, o) + Others(b, o)
  {
    if a != [] {
      var head: seq<Material?> := if a[0] == o then [] else [a[0]];
      assert (a + b)[0] == a[0];
      assert (a + b)[1..] == a[1..] + b;
      OthersConcat(a[1..], b, o);
      assert Others(a + b, o) == head + Others(a[1..] + b, o);
      assert Others(a, o) == head + Others(a[1..], o);
    } else {
      assert a + b == b;
    }
  }

  /** Adding the overlay keeps every other material, in its order. */
  lemma WithOverlayKeepsOthers(mats: seq<Material?>, o: Material)
    ensures Others(WithOverlay(mats, o), o) == Others(mats, o)
  {
    if o !in mats {
      OthersConcat(mats, [o], o);
      assert Others([o], o) == [];
    }
  }

  /** Removing the overlay keeps every other material, in its order. */
  lemma WithoutFirstKeepsOthers(mats: seq<Material?>, o: Material)
    ensures Others(WithoutFirst(mats, o), o) == Others(mats, o)
  {
    var k := IndexOf(mats, o);
    if k >= 0 {
      var front, back := mats[..k], mats[k + 1..];
      assert mats == front + ([o] + back);
      OthersConcat(front, [o] + back, o);
      OthersConcat([o], back, o);
      assert Others([o] + back, o) == Others(back, o);
      OthersConcat(front, back, o);
    }
  }

  /** Highlighting on then off gives back a list that did not hold the overlay. */
  lemma OverlayOnThenOffRestores(mats: seq<Material?>, o: Material)
    requires o !in mats
    ensures WithoutFirst(WithOverlay(mats, o), o) == mats
  {
    assert IndexOf(mats + [o], o) == |mats|;
    assert (mats + [o])[..|mats|] == mats;
  }

  /** Highlighting on twice adds the overlay once. */
  lemma WithOverlayIdempotent(mats: seq<Material?>, o: Material)
    ensures WithOverlay(WithOverlay(mats, o), o) == WithOverlay(mats, o)
  {
  }

  /** What one highlight change does to one renderer's list. */
  function OverlayEffect(mats: seq<Material?>, o: Material, on: bool): seq<Material?>
  {
    if on then WithOverlay(mats, o) else WithoutFirst(mats, o)
  }

  /** No renderer appears twice in the list. */
  predicate DistinctRenderers(rs: seq<Renderer?>)
  {
    forall i, j :: 0 <= i < j < |rs| && rs[i] != null ==> rs[i] != rs[j]
  }

  class ShopItem {
    const itemName: string
    const price: int
    var useOverlayMaterial: bool
    const overlayMaterial: Material?
    const emissionColor: Color
    const emissionIntensity: real
    var renderers: seq<Renderer?>
    var isHighlighted: bool

    ghost predicate Valid()
      reads this
    {
      DistinctRenderers(renderers)
    }

    ghost function RendererSet(): set<Renderer>
      reads this
    {
      set r: Renderer | r in renderers
    }

    /** Every non-null material of every non-null renderer. */
    ghost function MaterialSet(): set<Material>
      reads this, RendererSet()
    {
      set r: Renderer, m: Material | r in renderers && m in r.materials :: m
    }

    /** The colour the emission path lights the materials with. */
    function HighlightColor(): Color
      reads this
    {
      ScaleColor(emissionColor, emissionIntensity)
    }

    constructor (itemName: string, price: int, useOverlayMaterial: bool, overlayMaterial: Material?,
                 emissionColor: Color, emissionIntensity: real, renderers: seq<Renderer?>)
      ensures this.itemName == itemName && this.price == price
      ensures this.useOverlayMaterial == useOverlayMaterial && this.overlayMaterial == overlayMaterial
      ensures this.emissionColor == emissionColor && this.emissionIntensity == emissionIntensity
      ensures this.renderers == renderers && !isHighlighted
    {
      this.itemName := itemName;
      this.price := price;
      this.useOverlayMaterial := useOverlayMaterial;
      this.overlayMaterial := overlayMaterial;
      this.emissionColor := emissionColor;
      this.emissionIntensity := emissionIntensity;
      this.renderers := renderers;
      isHighlighted := false;
    }

    /** Awake: an empty renderer list is replaced by the renderers found in the children. */
    method Awake(children: seq<Renderer?>)
      modifies this`renderers
      ensures renderers == if |old(renderers)| == 0 then children else old(renderers)
      ensures old(Valid()) && DistinctRenderers(children) ==> Valid()
    {
      if |renderers| == 0 {
        renderers := children;
      }
    }

    /** SetHighlighted: a no-op when the state is already `on`; otherwise the state is recorded
        and the overlay or the emission path applied. */
    method SetHighlighted(on: bool)
      requires Valid()
      modifies this`isHighlighted, this`useOverlayMaterial, RendererSet(), MaterialSet()
      ensures isHighlighted == on
      ensures old(isHighlighted) == on ==> unchanged(this) && unchanged(RendererSet())
      ensures old(isHighlighted) == on ==>
                forall m :: m in MaterialSet() ==> m.emissionOn == old(m.emissionOn) && m.emissionColor == old(m.emissionColor)
      ensures old(isHighlighted) != on && old(useOverlayMaterial) && overlayMaterial != null ==>
                && useOverlayMaterial
                && (forall k :: 0 <= k < |renderers| && renderers[k] != null ==>
                      renderers[k].materials == OverlayEffect(old(renderers[k].materials), overlayMaterial, on))
                && forall m :: m in old(MaterialSet()) ==> unchanged(m)
      ensures old(isHighlighted) != on && !(old(useOverlayMaterial) && overlayMaterial != null) ==>
                && !useOverlayMaterial
                && unchanged(RendererSet())
                && forall m :: m in MaterialSet() ==> m.emissionOn == on && m.emissionColor == (if on then HighlightColor() else Black)
    {
      if isHighlighted == on {
        return;
      }
      isHighlighted := on;
      if useOverlayMaterial {
        ApplyOverlay(on);
      } else {
        ApplyEmission(on);
      }
    }

    /** ApplyOverlay: without an overlay material the item falls back to emission for good;
        otherwise every renderer's list gets the overlay added or its first occurrence removed. */
    method ApplyOverlay(on: bool)
      requires Valid()
      modifies this`useOverlayMaterial, RendererSet(), MaterialSet()
      ensures overlayMaterial != null ==>
                && useOverlayMaterial == old(useOverlayMaterial)
                && (forall k :: 0 <= k < |renderers| && renderers[k] != null ==>
                      renderers[k].materials == OverlayEffect(old(renderers[k].materials), overlayMaterial, on))
                && forall m :: m in old(MaterialSet()) ==> unchanged(m)
      ensures overlayMaterial == null ==>
                && !useOverlayMaterial
                && unchanged(RendererSet())
                && forall m :: m in MaterialSet() ==> m.emissionOn == on && m.emissionColor == (if on then HighlightColor() else Black)
    {
      if overlayMaterial == null {
        useOverlayMaterial := false;
        ApplyEmission(on);
        return;
      }
      OverlayAll(renderers, overlayMaterial, on);
    }

    /** ApplyEmission: every non-null material is lit with the highlight colour, or set back to
        black with its emission off. */
    method ApplyEmission(on: bool)
      modifies MaterialSet()
      ensures forall m :: m in MaterialSet() ==> m.emissionOn == on && m.emissionColor == (if on then HighlightColor() else Black)
    {
      var c := if on then HighlightColor() else Black;
      var i := 0;
      while i < |renderers|
        invariant 0 <= i <= |renderers|
        invariant forall k, m :: 0 <= k < i && renderers[k] != null && m in renderers[k].materials && m != null ==>
                    m.emissionOn == on && m.emissionColor == c
      {
        var r := renderers[i];
        if r != null {
          LightMaterials(r.materials, on, c);
        }
        i := i + 1;
      }
    }
  }

  /** The material lists of the renderers, an empty list standing for a missing renderer. */
  ghost function Lists(rs: seq<Renderer?>): (ls: seq<seq<Material?>>)
    reads set r: Renderer | r in rs
    ensures |ls| == |rs|
    ensures forall k :: 0 <= k < |rs| && rs[k] != null ==> ls[k] == rs[k].materials
  {
    seq(|rs|, k requires 0 <= k < |rs| reads rs => if rs[k] != null then rs[k].materials else [])
  }

  /** The loop of ApplyOverlay over the renderers. */
  method OverlayAll(rs: seq<Renderer?>, o: Material, on: bool)
    requires DistinctRenderers(rs)
    modifies set r: Renderer | r in rs
    ensures forall k :: 0 <= k < |rs| && rs[k] != null ==>
              rs[k].materials == OverlayEffect(old(rs[k].materials), o, on)
  {
    ghost var before := Lists(rs);
    var i := 0;
    while i < |rs|
      invariant 0 <= i <= |rs|
      invariant forall k :: 0 <= k < i && rs[k] != null ==> rs[k].materials == OverlayEffect(before[k], o, on)
      invariant forall k :: i <= k < |rs| && rs[k] != null ==> rs[k].materials == before[k]
    {
      var r := rs[i];
      if r != null {
        assert forall k :: 0 <= k < |rs| && k != i && rs[k] != null ==> rs[k] != r;
        OverlayOne(r, o, on);
      }
      i := i + 1;
    }
  }

  /** The body of ApplyOverlay's loop for one renderer. */
  method OverlayOne(r: Renderer, o: Material, on: bool)
    modifies r
    ensures r.materials == OverlayEffect(old(r.materials), o, on)
  {
    var mats := r.materials;
    if on {
      var has := IndexOf(mats, o) >= 0;
      if !has {
        r.materials := mats + [o];
      }
    } else {
      var idx := IndexOf(mats, o);
      if idx >= 0 {
        r.materials := mats[..idx] + mats[idx + 1..];
      }
    }
  }

  /** The inner loop of ApplyEmission over one renderer's materials. */
  method LightMaterials(mats: seq<Material?>, on: bool, c: Color)
    modifies set m | m in mats && m != null
    ensures forall m :: m in mats && m != null ==> m.emissionOn == on && m.emissionColor == c
  {
    var j := 0;
    while j < |mats|
      invariant 0 <= j <= |mats|
      invariant forall jj :: 0 <= jj < j && mats[jj] != null ==> mats[jj].emissionOn == on && mats[jj].emissionColor == c
    {
      var mat := mats[j];
      if mat != null {
        mat.emissionOn := on;
        mat.emissionColor := c;
      }
      j := j + 1;
    }
  }
}
