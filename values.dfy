/** JavaScript values as the cache engine sees them.

    The engine stores user data and errors without looking inside them; the
    only things it asks of a value are its truthiness (`if (data)`), its
    `typeof` being 'object', and strict equality (`===`).  Dafny `==` on
    `JsValue` plays the part of `===`: primitives compare by value, objects
    and functions by their reference. */
module JsValues {

  datatype Option<+T> = None | Some(value: T)

  datatype JsValue =
    | Undefined
    | Null
    | Bool(b: bool)
    | Num(n: int)
    | Str(s: string)
    | Obj(ref: nat)             // a plain object, identified by its reference
    | Func(ref: nat)            // a function (a callback), identified by its reference
    // An error object thrown by the runtime itself, e.g. "TypeError".  Two of
    // them with the same name are equal here, although each throw makes a new
    // object; the model never compares two such errors with each other.
    | RuntimeError(name: string)

  /** JavaScript truthiness: `undefined`, `null`, `false`, `0` and `""` are falsy. */
  predicate Truthy(v: JsValue) {
    match v
    case Undefined => false
    case Null => false
    case Bool(b) => b
    case Num(n) => n != 0
    case Str(s) => s != ""
    case _ => true
  }

  /** `typeof v === 'object'`, which holds for `null` as well. */
  predicate IsObjectTyped(v: JsValue) {
    v.Null? || v.Obj? || v.RuntimeError?
  }

  /** How an awaited promise settled. */
  datatype Outcome = Fulfilled(value: JsValue) | Rejected(reason: JsValue)

  /** An object's own enumerable properties, in `for ... in` order. */
  type Props = seq<(string, JsValue)>

  /** Property read `o[k]`: the value of the first property named `k`, or `undefined`. */
  function Get(p: Props, k: string): (v: JsValue)
    ensures v != Undefined ==> exists i :: 0 <= i < |p| && p[i] == (k, v)
    ensures (forall i :: 0 <= i < |p| ==> p[i].0 != k) ==> v == Undefined
  {
    if p == [] then Undefined
    else if p[0].0 == k then p[0].1
    else Get(p[1..], k)
  }

  /** `s.filter((y) => y !== x)`: every occurrence of `x` dropped, the rest kept in order. */
  function Without<T(==)>(s: seq<T>, x: T): (r: seq<T>)
    ensures |r| <= |s|
    ensures x !in r
    ensures forall y | y in r :: y in s && y != x
    ensures forall i | 0 <= i < |s| && s[i] != x :: s[i] in r
  {
    if s == [] then []
    else if s[0] == x then Without(s[1..], x)
    else [s[0]] + Without(s[1..], x)
  }

  /** Filtering distributes over concatenation, which is what "keeps the
      others in order" means. */
  lemma {:induction false} WithoutAppend<T>(a: seq<T>, b: seq<T>, x: T)
    ensures Without(a + b, x) == Without(a, x) + Without(b, x)
  {
    if a == [] {
      assert a + b == b;
    } else {
      assert (a + b)[0] == a[0];
      assert (a + b)[1..] == a[1..] + b;
      WithoutAppend(a[1..], b, x);
    }
  }

  /** Every element other than `x` keeps its number of occurrences. */
  lemma {:induction false} WithoutCount<T>(s: seq<T>, x: T, y: T)
    requires y != x
    ensures multiset(Without(s, x))[y] == multiset(s)[y]
  {
    if s != [] {
      assert s == [s[0]] + s[1..];
      WithoutCount(s[1..], x, y);
    }
  }

  /** Filtering out a value that is not there changes nothing. */
  lemma {:induction false} WithoutAbsent<T>(s: seq<T>, x: T)
    ensures Without(s, x) == s <==> x !in s
  {
    if s != [] {
      WithoutAbsent(s[1..], x);
      if s[0] != x {
        assert s == [s[0]] + s[1..];
      } else {
        assert |Without(s, x)| <= |s[1..]| < |s|;
      }
    }
  }
}
