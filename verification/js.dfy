/** Conventions of the JavaScript runtime the three handlers run on:
    `undefined` versus a present value, truthiness, strings as UTF-16 code
    units, and the two built-ins the handlers call (`String.prototype.slice`
    and `Array.prototype.includes`), together with the few general sequence
    helpers the handlers' models share (`Min`, `AppendCancels`, `EndsWith`).

    Request fields are modelled as Dafny strings (sequences of Unicode scalar
    values). Equality, concatenation and a search for an ASCII pattern answer
    the same on code points as on the code units JavaScript uses; only
    `slice`, which counts code units, is modelled on `Str`. */
module Js {

  /** One UTF-16 code unit; a JavaScript string is a sequence of them. */
  type Unit = u: int | 0 <= u < 0x1_0000

  /** A JavaScript string as the runtime stores it. Only the summarizer uses
      it, because `slice` counts code units; every other handler only
      compares, joins or searches strings, which answers the same on Dafny's
      `string`, so those fields are `string`. */
  type Str = seq<Unit>

  /** A request-body field: `None` is `undefined` (the key is absent). */
  datatype Option<+T> = None | Some(value: T) {

    /** The value, or `default` when undefined (a destructuring default). */
    function GetOr(default: T): (r: T)
      ensures Some? ==> r == value
      ensures None? ==> r == default
    {
      match this
      case Some(v) => v
      case None => default
    }
  }

  function Min(a: int, b: int): (m: int)
    ensures m <= a && m <= b
    ensures m == a || m == b
  {
    if a <= b then a else b
  }

  /** `ToBoolean` of a string-valued field: undefined and "" are falsy. */
  predicate Truthy<T>(v: Option<seq<T>>) {
    v.Some? && |v.value| > 0
  }

  /** How `String.prototype.slice` resolves one of its index arguments:
      negative indices count from the end, and both are clamped to the string. */
  function SliceIndex(k: int, len: nat): (r: nat)
    ensures r <= len
    ensures 0 <= k ==> r == Min(k, len)
    ensures k < 0 ==> r + Min(-k, len) == len
  {
    if k < 0 then (if len + k < 0 then 0 else len + k)
    else if k > len then len
    else k
  }

  /** `s.slice(start, end)`. */
  function Slice<T>(s: seq<T>, start: int, end: int): (r: seq<T>)
    ensures |r| <= |s|
    ensures 0 <= start <= end ==> r == s[Min(start, |s|)..Min(end, |s|)]
    ensures start == 0 && end >= 0 ==> |r| == Min(end, |s|) && r <= s
  {
    var from := SliceIndex(start, |s|);
    var to := SliceIndex(end, |s|);
    if from <= to then s[from..to] else []
  }

  /** `xs.includes(x)` on an array of strings; `undefined` is never included. */
  function Includes<T(==)>(xs: seq<T>, x: Option<T>): (r: bool)
    ensures r <==> x.Some? && x.value in xs
  {
    if |xs| == 0 then false
    else (x.Some? && xs[0] == x.value) || Includes(xs[1..], x)
  }

  /** Appending the same tail keeps two sequences apart. */
  lemma AppendCancels<T>(a: seq<T>, b: seq<T>, c: seq<T>)
    ensures a + c == b + c <==> a == b
  {
    if a + c == b + c {
      assert a == (a + c)[..|a|];
      assert b == (b + c)[..|b|];
    }
  }

  /** `a` ends with `suffix`. */
  predicate EndsWith<T(==)>(a: seq<T>, suffix: seq<T>) {
    |suffix| <= |a| && a[|a| - |suffix|..] == suffix
  }
}
