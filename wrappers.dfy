/** Option, Result and the error kinds a decoder can raise, plus the
    "x or None" normalisation that every decoder applies to flags and lists. */
module Wrappers {

  datatype Option<+T> = None | Some(value: T) {
    function GetOr(default: T): T {
      match this
      case Some(v) => v
      case None => default
    }
  }

  /** The exceptions the modelled code can raise: a strict dictionary lookup
      that misses, an attribute read on None (or on a wire object that lacks
      it), and an explicit ValueError. */
  datatype Error =
    | KeyError(key: Option<int>)
    | AttributeError(attribute: string)
    | ValueError(message: string)

  datatype Result<+T> = Ok(value: T) | Err(error: Error) {
    predicate IsFailure() { Err? }

    function PropagateFailure<U>(): Result<U>
      requires Err?
    {
      Err(error)
    }

    function Extract(): T
      requires Ok?
    {
      value
    }
  }

  /** `d.get(k)` on a dictionary; a missing key is not an error. */
  function Get<V>(m: map<int, V>, k: Option<int>): (r: Option<V>)
    ensures r.Some? <==> k.Some? && k.value in m
    ensures r.Some? ==> r.value == m[k.value]
  {
    if k.Some? && k.value in m then Some(m[k.value]) else None
  }

  /** `d[k]` on a dictionary: a missing key raises KeyError. */
  function Lookup<V>(m: map<int, V>, k: Option<int>): (r: Result<V>)
    ensures r.Ok? <==> k.Some? && k.value in m
    ensures r.Ok? ==> r.value == m[k.value]
    ensures r.Err? ==> r.error == KeyError(k)
  {
    if k.Some? && k.value in m then Ok(m[k.value]) else Err(KeyError(k))
  }

  /** Python's `flag or None` on a boolean: False becomes None. */
  function OrNone(b: bool): Option<bool> {
    if b then Some(true) else None
  }

  /** A flag in normal form never holds False. */
  predicate Normal(f: Option<bool>) {
    f != Some(false)
  }

  /** Python truthiness of an optional flag. */
  function Truthy(f: Option<bool>): bool {
    f == Some(true)
  }

  /** `bool(x)` of an optional integer. */
  function TruthyInt(x: Option<int>): bool {
    x.Some? && x.value != 0
  }

  /** Normalising a flag loses nothing: the flag can be read back, and a flag
      already in normal form is a fixed point. */
  lemma OrNoneRoundTrip(b: bool, f: Option<bool>)
    ensures Normal(OrNone(b)) && Truthy(OrNone(b)) == b
    ensures Normal(f) ==> OrNone(Truthy(f)) == f
  {
    match f
    case None =>
    case Some(v) =>
  }

  /** `types.List(xs) if xs else None`: an empty list becomes None. */
  function NonEmpty<T>(s: seq<T>): Option<seq<T>> {
    if |s| == 0 then None else Some(s)
  }

  /** The list a NonEmpty value stands for (None reads back as empty). */
  function Items<T>(o: Option<seq<T>>): seq<T> {
    match o
    case None => []
    case Some(s) => s
  }

  lemma NonEmptyRoundTrip<T>(s: seq<T>)
    ensures Items(NonEmpty(s)) == s
    ensures NonEmpty(s).Some? ==> |NonEmpty(s).value| > 0
  {
  }

  /** Python's `a or b` on optional integers: 0 and None are falsy. */
  function OrInt(a: Option<int>, b: Option<int>): (r: Option<int>)
    ensures TruthyInt(a) ==> r == a
    ensures !TruthyInt(a) ==> r == b
  {
    if TruthyInt(a) then a else b
  }

  /** Python's `a or b` on optional strings: "" and None are falsy. */
  function OrStr(a: Option<string>, b: Option<string>): (r: Option<string>)
    ensures a.Some? && a.value != "" ==> r == a
    ensures !(a.Some? && a.value != "") ==> r == b
  {
    if a.Some? && a.value != "" then a else b
  }

  /** `x or None` on an optional string. */
  function StrOrNone(s: Option<string>): (r: Option<string>)
    ensures r.Some? ==> r.value != ""
    ensures r.Some? ==> r == s
    ensures s.Some? && s.value != "" ==> r == s
  {
    if s.Some? && s.value != "" then s else None
  }

  /** A wire attribute that a decoder probes with `hasattr`: absent, or present
      with a value (which may itself be None). */
  datatype Attr<+T> = Absent | Present(value: T)

  /** A list comprehension whose element decoder may raise: every element
      decoded in order, and the first error ends it. */
  function Traverse<A, B>(f: A -> Result<B>, xs: seq<A>): Result<seq<B>> {
    if xs == [] then Ok([])
    else
      var init :- Traverse(f, xs[..|xs| - 1]);
      var last :- f(xs[|xs| - 1]);
      Ok(init + [last])
  }

  /** Element `k` raises `e`, and every element before it decodes. */
  predicate FirstError<A, B>(f: A -> Result<B>, xs: seq<A>, k: int, e: Error) {
    && 0 <= k < |xs|
    && f(xs[k]) == Err(e)
    && forall j :: 0 <= j < k ==> f(xs[j]).Ok?
  }

  /** A traversal succeeds exactly when every element decodes, and then holds
      each element's decoding in order; otherwise it raises the error of the
      first element that raises. */
  lemma {:induction false} TraverseLaws<A, B>(f: A -> Result<B>, xs: seq<A>)
    ensures Traverse(f, xs).Ok? <==> forall k :: 0 <= k < |xs| ==> f(xs[k]).Ok?
    ensures Traverse(f, xs).Ok? ==>
      |Traverse(f, xs).value| == |xs| && forall k :: 0 <= k < |xs| ==> f(xs[k]) == Ok(Traverse(f, xs).value[k])
    ensures Traverse(f, xs).Err? ==> exists k :: FirstError(f, xs, k, Traverse(f, xs).error)
    decreases |xs|
  {
    if xs != [] {
      var init := xs[..|xs| - 1];
      TraverseLaws(f, init);
      assert forall k :: 0 <= k < |init| ==> init[k] == xs[k];
      var r0 := Traverse(f, init);
      if r0.Err? {
        var k :| FirstError(f, init, k, r0.error);
        assert FirstError(f, xs, k, r0.error);
      } else {
        var last := f(xs[|xs| - 1]);
        if last.Err? {
          assert FirstError(f, xs, |xs| - 1, last.error);
        }
      }
    }
  }

  /** Once a prefix raises, the whole list raises the same error. */
  lemma {:induction false} TraverseErrorPersists<A, B>(f: A -> Result<B>, xs: seq<A>, ys: seq<A>)
    requires Traverse(f, xs).Err?
    ensures Traverse(f, xs + ys) == Traverse(f, xs)
    decreases |ys|
  {
    if ys == [] {
      assert xs + ys == xs;
    } else {
      var all := xs + ys;
      assert all[..|all| - 1] == xs + ys[..|ys| - 1];
      TraverseErrorPersists(f, xs, ys[..|ys| - 1]);
    }
  }

  /** One more element: the traversal of `xs + [x]` is that of `xs`
      followed by `f(x)`, the first error winning. */
  lemma TraverseSnoc<A, B>(f: A -> Result<B>, xs: seq<A>, x: A)
    ensures Traverse(f, xs + [x]) ==
      if Traverse(f, xs).Err? then Traverse(f, xs)
      else if f(x).Err? then Err(f(x).error)
      else Ok(Traverse(f, xs).value + [f(x).value])
  {
    assert (xs + [x])[..|xs|] == xs;
  }

  /** One step of a decoding loop at index `i`: how the traversal of the
      prefix extends by one element, and how an error in a prefix is the
      error of the whole list. */
  lemma TraverseStep<A, B>(f: A -> Result<B>, xs: seq<A>, i: int)
    requires 0 <= i < |xs|
    ensures Traverse(f, xs[..i]).Ok? ==>
      Traverse(f, xs[..i + 1]) == if f(xs[i]).Ok? then Ok(Traverse(f, xs[..i]).value + [f(xs[i]).value]) else Err(f(xs[i]).error)
    ensures Traverse(f, xs[..i + 1]).Err? ==> Traverse(f, xs) == Traverse(f, xs[..i + 1])
  {
    var q := xs[..i + 1];
    assert q[..|q| - 1] == xs[..i] && q[|q| - 1] == xs[i];
    if Traverse(f, q).Err? {
      assert q + xs[i + 1..] == xs;
      TraverseErrorPersists(f, q, xs[i + 1..]);
    }
  }

  /** A loop that decodes each element and keeps the ones that decode (those
      mapped to None are dropped), in order. */
  function FilterMap<A, B>(f: A -> Option<B>, xs: seq<A>): seq<B> {
    if xs == [] then []
    else
      var last := f(xs[|xs| - 1]);
      FilterMap(f, xs[..|xs| - 1]) + (if last.Some? then [last.value] else [])
  }

  /** One loop step: the prefix up to element `i` grows by that element's
      decoding, if any. */
  lemma FilterMapStep<A, B>(f: A -> Option<B>, xs: seq<A>, i: int)
    requires 0 <= i < |xs|
    ensures FilterMap(f, xs[..i + 1]) == FilterMap(f, xs[..i]) + (if f(xs[i]).Some? then [f(xs[i]).value] else [])
  {
    assert xs[..i + 1][..i] == xs[..i];
  }

  /** The filter distributes over concatenation, so it keeps relative order. */
  lemma {:induction false} FilterMapAppend<A, B>(f: A -> Option<B>, xs: seq<A>, ys: seq<A>)
    ensures FilterMap(f, xs + ys) == FilterMap(f, xs) + FilterMap(f, ys)
    decreases |ys|
  {
    if ys == [] {
      assert xs + ys == xs;
    } else {
      var all := xs + ys;
      assert all[..|all| - 1] == xs + ys[..|ys| - 1];
      assert all[|all| - 1] == ys[|ys| - 1];
      FilterMapAppend(f, xs, ys[..|ys| - 1]);
    }
  }

  /** One step of a loop that decodes the elements `sel` picks, in order,
      and stops at the first error: how the prefix up to element `i`
      extends to element `i + 1`, and how an error ends the list. */
  lemma FilterTraverseStep<A, X, B>(sel: A -> Option<X>, f: X -> Result<B>, xs: seq<A>, i: int)
    requires 0 <= i < |xs|
    ensures sel(xs[i]).None? ==> Traverse(f, FilterMap(sel, xs[..i + 1])) == Traverse(f, FilterMap(sel, xs[..i]))
    ensures sel(xs[i]).Some? && Traverse(f, FilterMap(sel, xs[..i])).Ok? ==>
      var d := f(sel(xs[i]).value);
      Traverse(f, FilterMap(sel, xs[..i + 1]))
        == if d.Ok? then Ok(Traverse(f, FilterMap(sel, xs[..i])).value + [d.value]) else Err(d.error)
    ensures Traverse(f, FilterMap(sel, xs[..i + 1])).Err? ==>
      Traverse(f, FilterMap(sel, xs)) == Traverse(f, FilterMap(sel, xs[..i + 1]))
  {
    FilterMapStep(sel, xs, i);
    var kept := FilterMap(sel, xs[..i + 1]);
    if sel(xs[i]).Some? {
      TraverseSnoc(f, FilterMap(sel, xs[..i]), sel(xs[i]).value);
    } else {
      assert kept == FilterMap(sel, xs[..i]);
    }
    if Traverse(f, kept).Err? {
      assert xs == xs[..i + 1] + xs[i + 1..];
      FilterMapAppend(sel, xs[..i + 1], xs[i + 1..]);
      TraverseErrorPersists(f, kept, FilterMap(sel, xs[i + 1..]));
    }
  }

  /** What the filter keeps: every kept value is the decoding of an input,
      at most one per input; nothing is dropped when every input decodes,
      and everything is dropped when none does. */
  lemma FilterMapLaws<A, B>(f: A -> Option<B>, xs: seq<A>)
    ensures |FilterMap(f, xs)| <= |xs|
    ensures forall y :: y in FilterMap(f, xs) ==> exists x :: x in xs && f(x) == Some(y)
    ensures (forall k :: 0 <= k < |xs| ==> f(xs[k]).Some?) ==>
      |FilterMap(f, xs)| == |xs| && forall k :: 0 <= k < |xs| ==> Some(FilterMap(f, xs)[k]) == f(xs[k])
    ensures (forall k :: 0 <= k < |xs| ==> f(xs[k]).None?) ==> FilterMap(f, xs) == []
  {
    FilterMapLength(f, xs);
    forall y | y in FilterMap(f, xs)
      ensures exists x :: x in xs && f(x) == Some(y)
    {
      var k := FilterMapSource(f, xs, y);
      assert xs[k] in xs;
    }
    if forall k :: 0 <= k < |xs| ==> f(xs[k]).Some? {
      var ys := seq(|xs|, k requires 0 <= k < |xs| => f(xs[k]).value);
      FilterMapTotal(f, xs, ys);
    }
    if forall k :: 0 <= k < |xs| ==> f(xs[k]).None? {
      FilterMapNone(f, xs);
    }
  }

  /** An element that decodes is kept, so the result is not empty. */
  lemma FilterMapKeeps<A, B>(f: A -> Option<B>, xs: seq<A>, k: int)
    requires 0 <= k < |xs| && f(xs[k]).Some?
    ensures FilterMap(f, xs) != []
  {
    assert xs == xs[..k] + [xs[k]] + xs[k + 1..];
    FilterMapAppend(f, xs[..k] + [xs[k]], xs[k + 1..]);
    FilterMapAppend(f, xs[..k], [xs[k]]);
    assert [xs[k]][..0] == [];
  }

  lemma {:induction false} FilterMapLength<A, B>(f: A -> Option<B>, xs: seq<A>)
    ensures |FilterMap(f, xs)| <= |xs|
    decreases |xs|
  {
    if xs != [] {
      FilterMapLength(f, xs[..|xs| - 1]);
    }
  }

  /** When no input decodes, nothing is kept. */
  lemma {:induction false} FilterMapNone<A, B>(f: A -> Option<B>, xs: seq<A>)
    requires forall k :: 0 <= k < |xs| ==> f(xs[k]).None?
    ensures FilterMap(f, xs) == []
    decreases |xs|
  {
    if xs != [] {
      FilterMapNone(f, xs[..|xs| - 1]);
    }
  }

  /** When every input decodes, the filter keeps exactly the decodings. */
  lemma {:induction false} FilterMapTotal<A, B>(f: A -> Option<B>, xs: seq<A>, ys: seq<B>)
    requires |ys| == |xs|
    requires forall k :: 0 <= k < |xs| ==> f(xs[k]) == Some(ys[k])
    ensures FilterMap(f, xs) == ys
    decreases |xs|
  {
    if xs != [] {
      var n := |xs| - 1;
      FilterMapTotal(f, xs[..n], ys[..n]);
      assert ys == ys[..n] + [ys[n]];
    }
  }

  /** The position of the element a kept value came from. */
  lemma {:induction false} FilterMapSource<A, B>(f: A -> Option<B>, xs: seq<A>, y: B) returns (k: int)
    requires y in FilterMap(f, xs)
    ensures 0 <= k < |xs| && f(xs[k]) == Some(y)
    decreases |xs|
  {
    var init := xs[..|xs| - 1];
    var last := f(xs[|xs| - 1]);
    if last.Some? && last.value == y {
      k := |xs| - 1;
    } else {
      k := FilterMapSource(f, init, y);
    }
  }
}
