/** Values and list operations shared by every part of the model.

  - `Option` stands for a JavaScript value that may be absent (`undefined`).
  - `Result` is the outcome of a request or a thunk: a payload or a rejection message.
  - `JsNumber` is a JavaScript number restricted to integers (money in minor units)
    plus `NaN`, which arithmetic on an absent field produces.
  - `Filter`, `FirstIndex`, `UpdateFirst` and `Sum` are `Array.prototype.filter`,
    `findIndex`/`find`, "assign at the found index" and `reduce` with `+`.
*/
module Common {

  datatype Option<+T> = None | Some(value: T)

  datatype Result<+T> = Ok(value: T) | Err(error: string)

  /** An integer-valued JavaScript number, or NaN. */
  datatype JsNumber = Finite(n: int) | NaN {
    /** JavaScript `+`: NaN absorbs everything. */
    function Plus(other: JsNumber): JsNumber {
      if Finite? && other.Finite? then Finite(n + other.n) else NaN
    }

    /** JavaScript `-` */
    function Minus(other: JsNumber): JsNumber {
      if Finite? && other.Finite? then Finite(n - other.n) else NaN
    }

    /** JavaScript `*` */
    function Times(other: JsNumber): JsNumber {
      if Finite? && other.Finite? then Finite(n * other.n) else NaN
    }
  }

  /** The outcome of evaluating a JavaScript expression that may throw a `TypeError`
      (reading a property of `undefined`). */
  datatype Eval = Value(v: JsNumber) | Throws

  /** `x` used in arithmetic: an absent field is `undefined`, which turns into NaN. */
  function AsNumber(x: Option<int>): JsNumber {
    match x
    case Some(v) => Finite(v)
    case None => NaN
  }

  /** JavaScript truthiness of a numeric field: absent and 0 are falsy. */
  predicate Truthy(x: Option<int>) {
    x.Some? && x.value != 0
  }

  /** `x || 0` */
  function OrZero(x: Option<int>): (r: int)
    ensures Truthy(x) ==> r == x.value
    ensures !Truthy(x) ==> r == 0
  {
    if Truthy(x) then x.value else 0
  }

  /** JavaScript truthiness of a string: only the empty string is falsy. */
  predicate TruthyString(s: Option<string>) {
    s.Some? && s.value != ""
  }

  /** `s || fallback` on strings. */
  function Or(s: string, fallback: string): string {
    if s == "" then fallback else s
  }

  // ---------------------------------------------------------------------------
  // filter

  /** `s.filter(keep)`: the elements that satisfy `keep`, in their original order. */
  function Filter<T>(s: seq<T>, keep: T -> bool): (r: seq<T>)
    ensures |r| <= |s|
    ensures forall j :: 0 <= j < |r| ==> keep(r[j])
  {
    if |s| == 0 then []
    else (if keep(s[0]) then [s[0]] else []) + Filter(s[1..], keep)
  }

  /** `a` can be obtained from `b` by deleting elements. */
  predicate IsSubsequence<T(==)>(a: seq<T>, b: seq<T>)
    decreases |b|
  {
    if |a| == 0 then true
    else if |b| == 0 then false
    else (a[0] == b[0] && IsSubsequence(a[1..], b[1..])) || IsSubsequence(a, b[1..])
  }

  lemma {:induction false} FilterMembership<T>(s: seq<T>, keep: T -> bool, x: T)
    ensures x in Filter(s, keep) <==> x in s && keep(x)
  {
    if |s| > 0 {
      FilterMembership(s[1..], keep, x);
      assert s == [s[0]] + s[1..];
    }
  }

  /** The result of a filter keeps the relative order of what it keeps. */
  lemma {:induction false} FilterIsSubsequence<T>(s: seq<T>, keep: T -> bool)
    ensures IsSubsequence(Filter(s, keep), s)
  {
    if |s| > 0 {
      FilterIsSubsequence(s[1..], keep);
      var rest := Filter(s[1..], keep);
      if keep(s[0]) {
        assert Filter(s, keep) == [s[0]] + rest;
        assert ([s[0]] + rest)[1..] == rest;
      } else {
        assert Filter(s, keep) == rest;
        SubsequenceOfTail(rest, s);
      }
    }
  }

  lemma {:induction false} SubsequenceOfTail<T>(a: seq<T>, b: seq<T>)
    requires |b| > 0 && IsSubsequence(a, b[1..])
    ensures IsSubsequence(a, b)
  {
  }

  /** Filtering a second time with the same test removes nothing more. */
  lemma {:induction false} FilterIdempotent<T>(s: seq<T>, keep: T -> bool)
    ensures Filter(Filter(s, keep), keep) == Filter(s, keep)
  {
    if |s| > 0 {
      FilterIdempotent(s[1..], keep);
      var rest := Filter(s[1..], keep);
      if keep(s[0]) {
        var r := [s[0]] + rest;
        assert Filter(s, keep) == r;
        assert r[0] == s[0] && r[1..] == rest;
        assert Filter(r, keep) == [s[0]] + Filter(rest, keep);
      } else {
        assert [] + rest == rest;
        assert Filter(s, keep) == rest;
      }
    }
  }

  /** When every element passes, the filter returns the whole list. */
  lemma {:induction false} FilterAll<T>(s: seq<T>, keep: T -> bool)
    requires forall j :: 0 <= j < |s| ==> keep(s[j])
    ensures Filter(s, keep) == s
  {
    if |s| > 0 {
      FilterAll(s[1..], keep);
      assert s == [s[0]] + s[1..];
    }
  }

  /** Filtering a concatenation filters each part. */
  lemma {:induction false} FilterAppend<T>(a: seq<T>, b: seq<T>, keep: T -> bool)
    ensures Filter(a + b, keep) == Filter(a, keep) + Filter(b, keep)
  {
    if |a| == 0 {
      assert a + b == b;
    } else {
      FilterAppend(a[1..], b, keep);
      assert (a + b)[1..] == a[1..] + b;
      assert (a + b)[0] == a[0];
    }
  }

  /** Two tests that agree on every element keep the same elements. */
  lemma {:induction false} FilterSameTest<T>(s: seq<T>, keep: T -> bool, keep': T -> bool)
    requires forall j :: 0 <= j < |s| ==> keep(s[j]) == keep'(s[j])
    ensures Filter(s, keep) == Filter(s, keep')
  {
    if |s| > 0 {
      FilterSameTest(s[1..], keep, keep');
    }
  }

  // ---------------------------------------------------------------------------
  // findIndex / find and assignment at the found index

  /** `k` is the index `findIndex(matches)` returns. */
  predicate IsFirstMatch<T>(s: seq<T>, matches: T -> bool, k: int) {
    0 <= k < |s| && matches(s[k]) && forall j :: 0 <= j < k ==> !matches(s[j])
  }

  /** `s.findIndex(matches)`, with `None` for -1. */
  function FirstIndex<T>(s: seq<T>, matches: T -> bool): (r: Option<nat>)
    ensures r.Some? ==> IsFirstMatch(s, matches, r.value)
    ensures r.None? <==> forall j :: 0 <= j < |s| ==> !matches(s[j])
  {
    if |s| == 0 then None
    else if matches(s[0]) then Some(0)
    else match FirstIndex(s[1..], matches)
      case None => None
      case Some(k) => Some(k + 1)
  }

  /** `const i = s.findIndex(matches); if (i !== -1) s[i] = change(s[i]);` */
  function UpdateFirst<T>(s: seq<T>, matches: T -> bool, change: T -> T): (r: seq<T>)
    ensures |r| == |s|
    ensures (forall j :: 0 <= j < |s| ==> !matches(s[j])) ==> r == s
    ensures forall k :: IsFirstMatch(s, matches, k) ==>
      r[k] == change(s[k]) && forall j :: 0 <= j < |s| && j != k ==> r[j] == s[j]
  {
    match FirstIndex(s, matches)
    case None => s
    case Some(k) => s[k := change(s[k])]
  }

  // ---------------------------------------------------------------------------
  // reduce with +

  /** `s.reduce((acc, x) => acc + f(x), 0)`, folded from the left as `reduce` does. */
  function Sum<T>(s: seq<T>, f: T -> int): int {
    if |s| == 0 then 0 else Sum(s[..|s| - 1], f) + f(s[|s| - 1])
  }

  lemma {:induction false} SumAppend<T>(a: seq<T>, b: seq<T>, f: T -> int)
    ensures Sum(a + b, f) == Sum(a, f) + Sum(b, f)
  {
    if |b| == 0 {
      assert a + b == a;
    } else {
      SumAppend(a, b[..|b| - 1], f);
      assert (a + b)[..|a + b| - 1] == a + b[..|b| - 1];
    }
  }

  /** A prefix one longer adds exactly the next element (the step a reduce loop takes). */
  lemma SumStep<T>(s: seq<T>, i: nat, f: T -> int)
    requires i < |s|
    ensures Sum(s[..i + 1], f) == Sum(s[..i], f) + f(s[i])
  {
    assert s[..i + 1][..i] == s[..i];
  }

  /** Elements that contribute nothing can be dropped from a sum. */
  lemma {:induction false} SumOfFilter<T>(s: seq<T>, f: T -> int, keep: T -> bool)
    requires forall j :: 0 <= j < |s| && !keep(s[j]) ==> f(s[j]) == 0
    ensures Sum(Filter(s, keep), f) == Sum(s, f)
  {
    if |s| > 0 {
      var last := s[|s| - 1];
      var init := s[..|s| - 1];
      assert s == init + [last];
      SumOfFilter(init, f, keep);
      FilterAppend(init, [last], keep);
      SumAppend(Filter(init, keep), Filter([last], keep), f);
      assert [last][1..] == [];
      if keep(last) {
        assert Filter([last], keep) == [last];
        assert Sum([last], f) == Sum([last][..0], f) + f(last);
      } else {
        assert Filter([last], keep) == [];
      }
    }
  }

  /** `s.map(g)` */
  function Map<A, B>(s: seq<A>, g: A -> B): (r: seq<B>)
    ensures |r| == |s| && forall j :: 0 <= j < |s| ==> r[j] == g(s[j])
  {
    seq(|s|, j requires 0 <= j < |s| => g(s[j]))
  }

  /** Summing `f` over a mapped list is summing, over the original list, any `h` that
      agrees with `f` after `g`. */
  lemma {:induction false} SumMap<A, B>(s: seq<A>, g: A -> B, f: B -> int, h: A -> int)
    requires forall j :: 0 <= j < |s| ==> h(s[j]) == f(g(s[j]))
    ensures Sum(Map(s, g), f) == Sum(s, h)
  {
    if |s| > 0 {
      var init := s[..|s| - 1];
      SumMap(init, g, f, h);
      assert Map(s, g)[..|s| - 1] == Map(init, g);
    }
  }

  /** `s.reduce((acc, x) => acc + f(x), 0)` when `f` may produce NaN. */
  function JsSum<T>(s: seq<T>, f: T -> JsNumber): JsNumber {
    if |s| == 0 then Finite(0) else JsSum(s[..|s| - 1], f).Plus(f(s[|s| - 1]))
  }

  /** A JavaScript sum is NaN exactly when one of its terms is; otherwise it is the integer
      sum of any `h` that agrees with `f` on the finite terms. */
  lemma {:induction false} JsSumIsSum<T>(s: seq<T>, f: T -> JsNumber, h: T -> int)
    requires forall j :: 0 <= j < |s| && f(s[j]).Finite? ==> h(s[j]) == f(s[j]).n
    ensures JsSum(s, f).NaN? <==> exists j :: 0 <= j < |s| && f(s[j]).NaN?
    ensures JsSum(s, f).Finite? ==> JsSum(s, f).n == Sum(s, h)
  {
    if |s| > 0 {
      var init := s[..|s| - 1];
      assert forall j :: 0 <= j < |init| ==> init[j] == s[j];
      JsSumIsSum(init, f, h);
      if f(s[|s| - 1]).NaN? {
        assert JsSum(s, f).NaN?;
      }
    }
  }

  /** `s.reduce((acc, x) => acc + f(x), 0)` when `f` may also throw: the first throw, in
      left-to-right order, ends the fold. */
  function EvalSum<T>(s: seq<T>, f: T -> Eval): Eval {
    if |s| == 0 then Value(Finite(0))
    else match EvalSum(s[..|s| - 1], f)
      case Throws => Throws
      case Value(acc) =>
        match f(s[|s| - 1])
        case Throws => Throws
        case Value(x) => Value(acc.Plus(x))
  }

  /** A fold over terms that each throw when the element lacks something throws as soon as
      one element does. */
  lemma {:induction false} EvalSumThrows<T>(s: seq<T>, f: T -> Eval, k: nat)
    requires k < |s| && f(s[k]).Throws?
    ensures EvalSum(s, f) == Throws
  {
    if k < |s| - 1 {
      assert s[..|s| - 1][k] == s[k];
      EvalSumThrows(s[..|s| - 1], f, k);
    }
  }

  /** When no term throws and every term is a finite `h`, the fold is the integer sum of `h`. */
  lemma {:induction false} EvalSumIsSum<T>(s: seq<T>, f: T -> Eval, h: T -> int)
    requires forall j :: 0 <= j < |s| ==> f(s[j]) == Value(Finite(h(s[j])))
    ensures EvalSum(s, f) == Value(Finite(Sum(s, h)))
  {
    if |s| > 0 {
      var init := s[..|s| - 1];
      assert forall j :: 0 <= j < |init| ==> init[j] == s[j];
      EvalSumIsSum(init, f, h);
    }
  }

  lemma JsSumStep<T>(s: seq<T>, i: nat, f: T -> JsNumber)
    requires i < |s|
    ensures JsSum(s[..i + 1], f) == JsSum(s[..i], f).Plus(f(s[i]))
  {
    assert s[..i + 1][..i] == s[..i];
  }

  // ---------------------------------------------------------------------------
  // ASCII case mapping (String.prototype.toLowerCase / toUpperCase on ASCII letters)

  function LowerChar(c: char): char {
    if 'A' <= c <= 'Z' then (c as int + 32) as char else c
  }

  function UpperChar(c: char): char {
    if 'a' <= c <= 'z' then (c as int - 32) as char else c
  }

  function Lower(s: string): (r: string)
    ensures |r| == |s|
    ensures forall j :: 0 <= j < |s| ==> r[j] == LowerChar(s[j])
  {
    seq(|s|, j requires 0 <= j < |s| => LowerChar(s[j]))
  }

  /** Lower-casing twice is lower-casing once. */
  lemma LowerIdempotent(s: string)
    ensures Lower(Lower(s)) == Lower(s)
  {
  }

  /** Lower-casing works character by character, so it distributes over concatenation. */
  lemma LowerAppend(a: string, b: string)
    ensures Lower(a + b) == Lower(a) + Lower(b)
  {
  }

  /** `needle` occurs in `hay` starting at index `i`. */
  predicate OccursAt(hay: string, needle: string, i: int) {
    0 <= i <= |hay| - |needle| && hay[i..i + |needle|] == needle
  }

  /** `hay.includes(needle)` */
  predicate Includes(hay: string, needle: string) {
    exists i :: 0 <= i <= |hay| - |needle| && OccursAt(hay, needle, i)
  }

  /** Every string includes the empty string. */
  lemma IncludesEmpty(hay: string)
    ensures Includes(hay, "")
  {
    assert OccursAt(hay, "", 0);
  }
}
