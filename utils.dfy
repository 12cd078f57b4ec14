/** The helpers of src/core/utils.js.  `now()` reads the wall clock; in this
    model time is always an explicit `now: nat` parameter instead. */
module Utils {
  import opened JsValues

  /** The test inside the `for ... in` loop: the two property values differ
      strictly and are not both object-typed (two objects, or null, always
      pass). */
  predicate Mismatch(x: JsValue, y: JsValue)
    ensures x == y ==> !Mismatch(x, y)
    ensures IsObjectTyped(x) && IsObjectTyped(y) ==> !Mismatch(x, y)
    ensures x != y && !IsObjectTyped(x) ==> Mismatch(x, y)
    ensures x != y && !IsObjectTyped(y) ==> Mismatch(x, y)
  {
    x != y && !(IsObjectTyped(x) && IsObjectTyped(y))
  }

  /** The loop over the keys of `a` still to be visited (`rest`, a suffix of
      `a`), returning at the first mismatching key. */
  function ScanKeys(rest: Props, a: Props, b: Props): (ok: bool)
    ensures ok <==> forall i :: 0 <= i < |rest| ==> !Mismatch(Get(a, rest[i].0), Get(b, rest[i].0))
  {
    if rest == [] then true
    else if Mismatch(Get(a, rest[0].0), Get(b, rest[0].0)) then false
    else ScanKeys(rest[1..], a, b)
  }

  /** `shallowEqualObjects(a, b)`; an argument is either falsy (`None`) or an
      object with its properties. */
  function ShallowEqualObjects(a: Option<Props>, b: Option<Props>): (r: bool)
    ensures a.Some? != b.Some? ==> !r
    ensures a.None? && b.None? ==> r
  {
    if (a.Some? && b.None?) || (b.Some? && a.None?) then false
    else if a.None? then true   // `for (key in undefined)` visits nothing
    else ScanKeys(a.value, a.value, b.value)
  }

  /** Between two objects the comparison fails exactly when some key of `a`
      holds values that differ and are not both object-typed. */
  lemma FalseIffMismatch(a: Props, b: Props)
    ensures !ShallowEqualObjects(Some(a), Some(b))
        <==> exists i :: 0 <= i < |a| && Mismatch(Get(a, a[i].0), Get(b, a[i].0))
  {
  }

  /** Two object-typed values under the same key never make it false, even
      when they are different objects. */
  lemma NestedObjectsTolerated(k: string, x: JsValue, y: JsValue)
    requires IsObjectTyped(x) && IsObjectTyped(y)
    ensures ShallowEqualObjects(Some([(k, x)]), Some([(k, y)]))
  {
  }

  /** A differing primitive value makes it false. */
  lemma PrimitiveDifferenceDetected(a: Props, b: Props, i: nat)
    requires i < |a|
    requires Get(a, a[i].0) != Get(b, a[i].0) && !IsObjectTyped(Get(a, a[i].0))
    ensures !ShallowEqualObjects(Some(a), Some(b))
  {
    FalseIffMismatch(a, b);
  }

  /** Reflexive. */
  lemma Reflexive(a: Option<Props>)
    ensures ShallowEqualObjects(a, a)
  {
  }

  /** One-sided: only the keys of `a` are read from `b`, so two second
      arguments that agree on them give the same answer, whatever other keys
      they hold. */
  lemma {:induction false} OnlyKeysOfFirstMatter(a: Props, b: Props, c: Props)
    requires forall i :: 0 <= i < |a| ==> Get(b, a[i].0) == Get(c, a[i].0)
    ensures ShallowEqualObjects(Some(a), Some(b)) == ShallowEqualObjects(Some(a), Some(c))
  {
    assert forall i :: 0 <= i < |a| ==>
      (Mismatch(Get(a, a[i].0), Get(b, a[i].0)) <==> Mismatch(Get(a, a[i].0), Get(c, a[i].0)));
  }

  /** In particular an empty first object equals every object. */
  lemma EmptyFirstEqualsAnything(b: Props)
    ensures ShallowEqualObjects(Some([]), Some(b))
  {
  }
}
