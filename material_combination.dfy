/**
 * Materials and material combinations: one or two stacked materials painted
 * as a single unit. A combination is immutable; equality, the hash key and
 * the display string are built from the materials' identifiers, while
 * `IsMultiLayer` compares the two slots by object identity.
 */
module Materials {
  import opened Wrappers
  import opened Drawing

  /**
   * A loaded material. Objects are compared by identity; the identifier is
   * what equality of combinations looks at. Its textures are not part of
   * this model.
   */
  class Material {
    const pixelStackerId: string

    constructor (id: string)
      ensures pixelStackerId == id
    {
      pixelStackerId := id;
    }
  }

  /** The `ArgumentNullException` of a constructor, by the parameter it names. */
  datatype CombinationError = NullBottom | NullTop

  /** A bottom material with a top material stacked on it. */
  datatype MaterialCombination = MaterialCombination(bottom: Material, top: Material) {

    /** Two different material objects fill the slots (even if their identifiers agree). */
    predicate IsMultiLayer() {
      bottom != top
    }
  }

  /** The palette a canvas paints from: combination identifier to combination. */
  type MaterialPalette = map<int, MaterialCombination>

  /** What `Equals(object)` can be handed: null, a combination, or any other object. */
  datatype ObjectRef = NullRef | CombinationRef(combination: MaterialCombination) | OtherRef

  /** The two composited renderings of a combination, one per viewing orientation. */
  datatype CompositeImages = CompositeImages(topImage: PxBitmap, sideImage: PxBitmap)

  /** `new MaterialCombination(mBottom, mTop)`: a null bottom is reported before a null top. */
  function Create(bottom: Material?, top: Material?): (r: Result<MaterialCombination, CombinationError>)
    ensures r.Ok? <==> bottom != null && top != null
    ensures bottom == null ==> r == Err(NullBottom)
    ensures bottom != null && top == null ==> r == Err(NullTop)
    ensures r.Ok? ==> r.value.bottom == bottom && r.value.top == top
    ensures r.Ok? ==> (r.value.IsMultiLayer() <==> bottom != top)
  {
    if bottom == null then Err(NullBottom)
    else if top == null then Err(NullTop)
    else Ok(MaterialCombination(bottom, top))
  }

  /** `new MaterialCombination(m)`: the same object in both slots, hence never multi-layer. */
  function CreateSingle(m: Material?): (r: Result<MaterialCombination, CombinationError>)
    ensures r.Ok? <==> m != null
    ensures m == null ==> r == Err(NullBottom)
    ensures r.Ok? ==> r.value.bottom == m && r.value.top == m && !r.value.IsMultiLayer()
  {
    Create(m, m)
  }

  /** `new MaterialCombination(idBottom, idTop)`, resolving both identifiers through the material catalogue. */
  function CreateFromIds(idBottom: string, idTop: string, lookup: string -> Material?): (r: Result<MaterialCombination, CombinationError>)
    ensures r.Ok? <==> lookup(idBottom) != null && lookup(idTop) != null
    ensures lookup(idBottom) == null ==> r == Err(NullBottom)
    ensures r.Ok? ==> r.value.bottom == lookup(idBottom) && r.value.top == lookup(idTop)
  {
    Create(lookup(idBottom), lookup(idTop))
  }

  /** `new MaterialCombination(id)`, resolving the identifier through the material catalogue. */
  function CreateFromId(id: string, lookup: string -> Material?): (r: Result<MaterialCombination, CombinationError>)
    ensures r.Ok? <==> lookup(id) != null
    ensures r.Ok? ==> r.value.bottom == lookup(id) && r.value.top == lookup(id) && !r.value.IsMultiLayer()
  {
    CreateSingle(lookup(id))
  }

  /** `x.Equals(y)`: false against null, otherwise slot by slot on identifiers (order-sensitive). */
  predicate Equals(x: MaterialCombination, y: Option<MaterialCombination>) {
    match y
    case None => false
    case Some(other) =>
      x.top.pixelStackerId == other.top.pixelStackerId
      && x.bottom.pixelStackerId == other.bottom.pixelStackerId
  }

  /** `x.Equals(object)`: only a combination can be equal. */
  predicate EqualsObject(x: MaterialCombination, obj: ObjectRef) {
    obj.CombinationRef? && Equals(x, Some(obj.combination))
  }

  /** The string whose hash is `GetHashCode`: top identifier, "::", bottom identifier. */
  function HashKey(x: MaterialCombination): string {
    x.top.pixelStackerId + "::" + x.bottom.pixelStackerId
  }

  /** `ToString`: bottom identifier, "::", top identifier. */
  function ToString(x: MaterialCombination): string {
    x.bottom.pixelStackerId + "::" + x.top.pixelStackerId
  }

  /** `GetImage(isSide)`: the side rendering when viewed from the side, the top rendering otherwise. */
  function GetImage(images: CompositeImages, isSide: bool): (r: PxBitmap)
    ensures r == (if isSide then images.sideImage else images.topImage)
  {
    if isSide then images.sideImage else images.topImage
  }

  /** `Equals` is an equivalence relation on combinations. */
  lemma EqualsIsEquivalence(x: MaterialCombination, y: MaterialCombination, z: MaterialCombination)
    ensures Equals(x, Some(x))
    ensures Equals(x, Some(y)) ==> Equals(y, Some(x))
    ensures Equals(x, Some(y)) && Equals(y, Some(z)) ==> Equals(x, Some(z))
  {
  }

  /** `Equals(object)` agrees with the typed overload and rejects null and foreign objects. */
  lemma EqualsObjectAgrees(x: MaterialCombination, obj: ObjectRef)
    ensures obj.CombinationRef? ==> (EqualsObject(x, obj) <==> Equals(x, Some(obj.combination)))
    ensures !obj.CombinationRef? ==> !EqualsObject(x, obj)
  {
  }

  /** Swapping bottom and top gives a different combination unless the identifiers coincide. */
  lemma EqualsIsOrderSensitive(a: Material, b: Material)
    ensures Equals(MaterialCombination(a, b), Some(MaterialCombination(b, a)))
        <==> a.pixelStackerId == b.pixelStackerId
  {
  }

  /** Equal combinations have equal hash keys, so they hash alike. */
  lemma EqualsImpliesSameHashKey(x: MaterialCombination, y: MaterialCombination)
    requires Equals(x, Some(y))
    ensures HashKey(x) == HashKey(y)
  {
  }

  /** `ToString` lists the slots in the opposite order to the hash key. */
  lemma ToStringIsSwappedHashKey(x: MaterialCombination)
    ensures ToString(x) == HashKey(MaterialCombination(x.top, x.bottom))
  {
  }

  /**
   * `IsMultiLayer` looks at identity, not at identifiers: two material
   * objects with one identifier make a multi-layer combination that is
   * nevertheless equal to the single-layer one.
   */
  lemma MultiLayerIsByIdentity(m1: Material, m2: Material)
    requires m1 != m2 && m1.pixelStackerId == m2.pixelStackerId
    ensures MaterialCombination(m1, m2).IsMultiLayer()
    ensures !MaterialCombination(m1, m1).IsMultiLayer()
    ensures Equals(MaterialCombination(m1, m2), Some(MaterialCombination(m1, m1)))
  {
  }

  /** `s + "::" + t` has its first ':' at `|s|` when `s` holds no ':'. */
  lemma FirstSeparator(s: string, t: string, k: int)
    requires ':' !in s && 0 <= k <= |s|
    ensures (s + "::" + t)[k] == ':' <==> k == |s|
  {
    if k < |s| {
      assert (s + "::" + t)[k] == s[k];
    }
  }

  /**
   * When no top identifier contains ':', the hash key determines the
   * combination up to `Equals`: equal keys hold exactly for equal combinations.
   */
  lemma {:induction false} HashKeyIdentifiesCombination(x: MaterialCombination, y: MaterialCombination)
    requires ':' !in x.top.pixelStackerId && ':' !in y.top.pixelStackerId
    ensures HashKey(x) == HashKey(y) <==> Equals(x, Some(y))
  {
    var s1, t1 := x.top.pixelStackerId, x.bottom.pixelStackerId;
    var s2, t2 := y.top.pixelStackerId, y.bottom.pixelStackerId;
    if HashKey(x) == HashKey(y) {
      var u := HashKey(x);
      if |s1| < |s2| {
        FirstSeparator(s1, t1, |s1|);
        FirstSeparator(s2, t2, |s1|);
      } else if |s2| < |s1| {
        FirstSeparator(s2, t2, |s2|);
        FirstSeparator(s1, t1, |s2|);
      }
      assert |s1| == |s2|;
      assert s1 == u[..|s1|] == s2;
      assert t1 == u[|s1| + 2..] == t2;
    }
  }
}
