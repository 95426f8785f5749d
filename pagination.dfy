/** The cursor-paginated fetch protocol shared by `get_stars_transactions`
    and `get_boosts_list`: a budget derived from `limit`, pages of at most
    100 items requested with the server's `next_offset`, items yielded in
    order, and three ways to stop (an empty page, no next offset, the budget
    reached mid-page). The server is an oracle from request to page. */
module Pagination {
  import opened Wrappers

  /** `(1 << 31) - 1`, the budget when no limit is given. */
  const Unlimited: nat := 0x7FFF_FFFF

  /** The largest page the loop asks for. */
  const MaxPage: nat := 100

  /** `abs(limit) or (1 << 31) - 1`. */
  function Budget(limit: int): (total: nat)
    ensures total > 0
    ensures limit > 0 ==> total == limit
    ensures limit < 0 ==> total == -limit
    ensures limit == 0 ==> total == Unlimited
  {
    if limit > 0 then limit else if limit < 0 then -limit else Unlimited
  }

  /** `min(100, total)`. */
  function PageSize(total: nat): (size: nat)
    ensures size <= MaxPage && size <= total
    ensures size == MaxPage || size == total
  {
    if total < MaxPage then total else MaxPage
  }

  /** One page request: the offset and the page size sent. */
  datatype Request = Request(offset: string, limit: int)

  /** One answer: its items, in server order, each already decoded (a
      decoding failure is an error item), and the next offset. */
  datatype Page<T> = Page(items: seq<Result<T>>, nextOffset: Option<string>)

  /** What a whole iteration produced: the items yielded in order, the
      requests sent in order, and the error that ended it, if any. */
  datatype Outcome<T> = Outcome(yielded: seq<T>, requests: seq<Request>, error: Option<Error>)

  function Prepend<T>(ys: seq<T>, rs: seq<Request>, o: Outcome<T>): Outcome<T> {
    Outcome(ys + o.yielded, rs + o.requests, o.error)
  }

  lemma PrependAssoc<T>(ys: seq<T>, rs: seq<Request>, zs: seq<T>, qs: seq<Request>, o: Outcome<T>)
    ensures Prepend(ys, rs, Prepend(zs, qs, o)) == Prepend(ys + zs, rs + qs, o)
  {
    assert ys + (zs + o.yielded) == (ys + zs) + o.yielded;
    assert rs + (qs + o.requests) == (rs + qs) + o.requests;
  }

  /** `if not offset: return` after a page. */
  predicate NoNext<T>(p: Page<T>) {
    p.nextOffset.None? || p.nextOffset.value == ""
  }

  /** The loop from a request onwards, with `current` items yielded so far. */
  function Run<T>(fetch: Request -> Page<T>, offset: string, size: nat, total: nat, current: nat): Outcome<T>
    requires current < total
    decreases total - current, 1
  {
    var req := Request(offset, size);
    var page := fetch(req);
    if |page.items| == 0 then Outcome([], [req], None)
    else Prepend([], [req], Drain(fetch, page, current, 0, size, total))
  }

  /** The loop inside a non-empty page from item `i`, the page having started
      at count `start`. */
  function Drain<T>(fetch: Request -> Page<T>, page: Page<T>, start: nat, i: nat, size: nat, total: nat): Outcome<T>
    requires 0 < |page.items| && i <= |page.items| && start + i < total
    decreases total - start, 0, |page.items| - i
  {
    if i == |page.items| then
      if NoNext(page) then Outcome([], [], None)
      else Run(fetch, page.nextOffset.value, size, total, start + i)
    else
      match page.items[i]
      case Err(e) => Outcome([], [], Some(e))
      case Ok(x) =>
        if start + i + 1 >= total then Outcome([x], [], None)
        else Prepend([x], [], Drain(fetch, page, start, i + 1, size, total))
  }

  /** One item of a page, inside a loop that has already yielded `ys`: an
      error stops it, the budget reached stops it after the item, and
      otherwise the item is yielded and the loop goes on. */
  lemma DrainItem<T>(fetch: Request -> Page<T>, page: Page<T>, start: nat, i: nat, size: nat, total: nat, ys: seq<T>)
    requires 0 < |page.items| && i < |page.items| && start + i < total
    ensures page.items[i].Err? ==>
      Prepend(ys, [], Drain(fetch, page, start, i, size, total)) == Outcome(ys, [], Some(page.items[i].error))
    ensures page.items[i].Ok? && start + i + 1 >= total ==>
      Prepend(ys, [], Drain(fetch, page, start, i, size, total)) == Outcome(ys + [page.items[i].value], [], None)
    ensures page.items[i].Ok? && start + i + 1 < total ==>
      Prepend(ys, [], Drain(fetch, page, start, i, size, total))
      == Prepend(ys + [page.items[i].value], [], Drain(fetch, page, start, i + 1, size, total))
  {
    var none: seq<Request> := [];
    assert ys + [] == ys && none + none == none;
    if page.items[i].Ok? && start + i + 1 < total {
      PrependAssoc(ys, [], [page.items[i].value], [], Drain(fetch, page, start, i + 1, size, total));
    }
  }

  /** The whole loop for a `limit` and a starting offset. */
  function Iterate<T>(fetch: Request -> Page<T>, limit: int, offset: string): Outcome<T> {
    Run(fetch, offset, PageSize(Budget(limit)), Budget(limit), 0)
  }

  /** One step of the loop: the request sent, then the empty page ends it or
      its items are drained. */
  lemma RunStep<T>(fetch: Request -> Page<T>, offset: string, size: nat, total: nat, current: nat)
    requires current < total
    ensures var req := Request(offset, size);
      && (|fetch(req).items| == 0 ==> Run(fetch, offset, size, total, current) == Outcome([], [req], None))
      && (|fetch(req).items| > 0 ==>
            Run(fetch, offset, size, total, current) == Prepend([], [req], Drain(fetch, fetch(req), current, 0, size, total)))
  {
  }

  /** The end of a fully drained page: stop, or request the next offset. */
  lemma DrainEnd<T>(fetch: Request -> Page<T>, page: Page<T>, start: nat, size: nat, total: nat)
    requires 0 < |page.items| && start + |page.items| < total
    ensures NoNext(page) ==> Drain(fetch, page, start, |page.items|, size, total) == Outcome([], [], None)
    ensures !NoNext(page) ==>
      Drain(fetch, page, start, |page.items|, size, total) == Run(fetch, page.nextOffset.value, size, total, start + |page.items|)
  {
  }

  // The four ways one page moves a loop that has already yielded `ys` and
  // sent `rs`: what the loop methods use to keep `Run` as their invariant.

  /** An empty page ends the loop. */
  lemma PageEmpty<T>(fetch: Request -> Page<T>, ys: seq<T>, rs: seq<Request>, offset: string, size: nat, total: nat, current: nat)
    requires current < total && |fetch(Request(offset, size)).items| == 0
    ensures Prepend(ys, rs, Run(fetch, offset, size, total, current)) == Outcome(ys, rs + [Request(offset, size)], None)
  {
    assert ys + [] == ys;
  }

  /** A page whose drain stopped early (an error, or the budget) ends the loop. */
  lemma PageStopped<T>(fetch: Request -> Page<T>, ys: seq<T>, rs: seq<Request>, offset: string, size: nat, total: nat, current: nat,
                       items: seq<T>, error: Option<Error>)
    requires current < total
    requires var page := fetch(Request(offset, size));
      0 < |page.items| && Drain(fetch, page, current, 0, size, total) == Outcome(items, [], error)
    ensures Prepend(ys, rs, Run(fetch, offset, size, total, current)) == Outcome(ys + items, rs + [Request(offset, size)], error)
  {
    assert [] + items == items;
    assert [Request(offset, size)] + [] == [Request(offset, size)];
  }

  /** A page drained to its end, with no next offset, ends the loop. */
  lemma PageLast<T>(fetch: Request -> Page<T>, ys: seq<T>, rs: seq<Request>, offset: string, size: nat, total: nat, current: nat,
                    items: seq<T>)
    requires current < total
    requires var page := fetch(Request(offset, size));
      && 0 < |page.items| && |items| == |page.items| && current + |items| < total && NoNext(page)
      && Drain(fetch, page, current, 0, size, total) == Prepend(items, [], Drain(fetch, page, current, |items|, size, total))
    ensures Prepend(ys, rs, Run(fetch, offset, size, total, current)) == Outcome(ys + items, rs + [Request(offset, size)], None)
  {
    var page := fetch(Request(offset, size));
    DrainEnd(fetch, page, current, size, total);
    assert items + [] == items;
    assert [Request(offset, size)] + [] == [Request(offset, size)];
  }

  /** A page drained to its end, with a next offset, hands over to the next request. */
  lemma PageNext<T>(fetch: Request -> Page<T>, ys: seq<T>, rs: seq<Request>, offset: string, size: nat, total: nat, current: nat,
                    items: seq<T>)
    requires current < total
    requires var page := fetch(Request(offset, size));
      && 0 < |page.items| && |items| == |page.items| && current + |items| < total && !NoNext(page)
      && Drain(fetch, page, current, 0, size, total) == Prepend(items, [], Drain(fetch, page, current, |items|, size, total))
    ensures var page := fetch(Request(offset, size));
      Prepend(ys, rs, Run(fetch, offset, size, total, current))
      == Prepend(ys + items, rs + [Request(offset, size)], Run(fetch, page.nextOffset.value, size, total, current + |items|))
  {
    var page := fetch(Request(offset, size));
    var req := Request(offset, size);
    DrainEnd(fetch, page, current, size, total);
    RunStep(fetch, offset, size, total, current);
    var after := Run(fetch, page.nextOffset.value, size, total, current + |items|);
    assert Run(fetch, offset, size, total, current) == Prepend([], [req], Prepend(items, [], after));
    PrependAssoc([], [req], items, [], after);
    assert [] + items == items && [req] + [] == [req];
    PrependAssoc(ys, rs, items, [req], after);
  }

  // ------------------------------------------------------------------ laws

  /** The items of the pages answered to the requests, in request order. */
  function AllItems<T>(fetch: Request -> Page<T>, rs: seq<Request>): seq<Result<T>> {
    if rs == [] then [] else fetch(rs[0]).items + AllItems(fetch, rs[1..])
  }

  /** Each request after the first carries the non-empty next offset of a
      non-empty previous page, and every request asks for `size` items. */
  predicate Threaded<T>(fetch: Request -> Page<T>, rs: seq<Request>, size: nat) {
    && (forall k :: 0 <= k < |rs| ==> rs[k].limit == size)
    && (forall k :: 0 <= k < |rs| - 1 ==> Follows(fetch, rs[k], rs[k + 1]))
  }

  /** Request `b` is the one sent after the answer to request `a`. */
  predicate Follows<T>(fetch: Request -> Page<T>, a: Request, b: Request) {
    && |fetch(a).items| > 0
    && fetch(a).nextOffset == Some(b.offset)
    && b.offset != ""
  }

  /** The yielded items are the leading items of `all`, in order, and an
      error is the item right after them. */
  ghost predicate Yields<T>(all: seq<Result<T>>, o: Outcome<T>) {
    && |o.yielded| <= |all|
    && (forall k :: 0 <= k < |o.yielded| ==> all[k] == Ok(o.yielded[k]))
    && (o.error.Some? ==> |o.yielded| < |all| && all[|o.yielded|] == Err(o.error.value))
  }

  /** Why a loop that neither failed nor used up its budget stopped: it
      yielded every item it received, and the last page was empty or had no
      next offset. */
  predicate Exhausted<T>(fetch: Request -> Page<T>, all: seq<Result<T>>, last: Page<T>, o: Outcome<T>) {
    |o.yielded| == |all| && (|last.items| == 0 || NoNext(last))
  }

  lemma AllItemsAppend<T>(fetch: Request -> Page<T>, r: Request, rs: seq<Request>)
    ensures AllItems(fetch, [r] + rs) == fetch(r).items + AllItems(fetch, rs)
  {
    assert ([r] + rs)[1..] == rs;
  }

  lemma {:induction false} AllItemsLast<T>(fetch: Request -> Page<T>, rs: seq<Request>)
    requires rs != []
    ensures AllItems(fetch, rs) == AllItems(fetch, rs[..|rs| - 1]) + fetch(rs[|rs| - 1]).items
    decreases |rs|
  {
    var init := rs[..|rs| - 1];
    var last := fetch(rs[|rs| - 1]).items;
    if |rs| == 1 {
      assert init == [];
      assert AllItems(fetch, rs[1..]) == [];
    } else {
      var tail := rs[1..];
      AllItemsLast(fetch, tail);
      assert tail[..|tail| - 1] == init[1..];
      assert tail[|tail| - 1] == rs[|rs| - 1];
      var head := fetch(rs[0]).items;
      assert AllItems(fetch, rs) == head + (AllItems(fetch, init[1..]) + last);
      assert init[0] == rs[0];
      assert AllItems(fetch, init) == head + AllItems(fetch, init[1..]);
      assert head + (AllItems(fetch, init[1..]) + last) == (head + AllItems(fetch, init[1..])) + last;
    }
  }

  lemma YieldsCons<T>(x: T, rest: seq<Result<T>>, d: Outcome<T>)
    requires Yields(rest, d)
    ensures Yields([Ok(x)] + rest, Prepend([x], [], d))
  {
    var o := Prepend([x], [], d);
    assert forall k :: 0 <= k < |d.yielded| ==> o.yielded[k + 1] == d.yielded[k];
    assert forall k :: 0 <= k < |d.yielded| ==> ([Ok(x)] + rest)[k + 1] == rest[k];
  }

  lemma ThreadedCons<T>(fetch: Request -> Page<T>, req: Request, rs: seq<Request>, size: nat)
    requires Threaded(fetch, rs, size) && req.limit == size
    requires rs != [] ==> Follows(fetch, req, rs[0])
    ensures Threaded(fetch, [req] + rs, size)
  {
    var all := [req] + rs;
    assert forall k :: 1 <= k < |all| ==> all[k] == rs[k - 1];
  }

  /** The laws of the loop from a request onwards: the budget bounds what is
      yielded, the first request is the given offset, requests are threaded,
      the yielded items are the received ones in order, and an early stop
      without error means the input ran out. */
  lemma {:induction false} RunLaws<T>(fetch: Request -> Page<T>, offset: string, size: nat, total: nat, current: nat)
    requires current < total
    ensures var o := Run(fetch, offset, size, total, current);
      && |o.yielded| <= total - current
      && |o.requests| > 0 && o.requests[0] == Request(offset, size)
      && Threaded(fetch, o.requests, size)
      && Yields(AllItems(fetch, o.requests), o)
      && (o.error.None? && |o.yielded| < total - current ==>
            Exhausted(fetch, AllItems(fetch, o.requests), fetch(o.requests[|o.requests| - 1]), o))
    decreases total - current, 1
  {
    var req := Request(offset, size);
    var page := fetch(req);
    var o := Run(fetch, offset, size, total, current);
    if |page.items| == 0 {
      assert o.requests == [req];
      assert AllItems(fetch, o.requests) == [] by { AllItemsAppend(fetch, req, []); }
    } else {
      var d := Drain(fetch, page, current, 0, size, total);
      DrainLaws(fetch, page, current, 0, size, total);
      assert o == Prepend([], [req], d);
      AllItemsAppend(fetch, req, d.requests);
      assert page.items[0..] == page.items;
      assert o.yielded == d.yielded;
      ThreadedCons(fetch, req, d.requests, size);
      if d.requests != [] {
        assert o.requests[|o.requests| - 1] == d.requests[|d.requests| - 1];
      }
    }
  }

  /** The laws of the loop inside a page from item `i`: the budget left
      bounds what is yielded, a later request is the page's next offset, the
      requests are threaded, the yielded items are the rest of the page and
      then the received ones in order, and an early stop without error means
      the input ran out. */
  ghost predicate DrainLawsAt<T>(fetch: Request -> Page<T>, page: Page<T>, start: nat, i: nat, size: nat, total: nat, o: Outcome<T>)
    requires i <= |page.items| && start + i < total
  {
    && |o.yielded| <= total - (start + i)
    && (o.requests != [] ==>
          !NoNext(page) && o.requests[0].offset == page.nextOffset.value)
    && Threaded(fetch, o.requests, size)
    && Yields(page.items[i..] + AllItems(fetch, o.requests), o)
    && (o.error.None? && |o.yielded| < total - (start + i) ==>
          Exhausted(fetch, page.items[i..] + AllItems(fetch, o.requests),
                    if o.requests == [] then page else fetch(o.requests[|o.requests| - 1]), o))
  }

  lemma {:induction false} DrainLaws<T>(fetch: Request -> Page<T>, page: Page<T>, start: nat, i: nat, size: nat, total: nat)
    requires 0 < |page.items| && i <= |page.items| && start + i < total
    ensures DrainLawsAt(fetch, page, start, i, size, total, Drain(fetch, page, start, i, size, total))
    decreases total - start, 0, |page.items| - i
  {
    if i == |page.items| {
      assert page.items[i..] == [];
      if !NoNext(page) {
        RunLaws(fetch, page.nextOffset.value, size, total, start + i);
      }
    } else {
      match page.items[i]
      case Err(e) =>
      case Ok(x) =>
        if start + i + 1 < total {
          DrainLaws(fetch, page, start, i + 1, size, total);
          DrainCons(fetch, page, start, i, size, total, x, Drain(fetch, page, start, i + 1, size, total));
        } else {
          assert AllItems(fetch, []) == [];
          assert (page.items[i..] + [])[0] == Ok(x);
        }
    }
  }

  /** One yielded item keeps the laws: from those after item `i` to those
      from item `i`. */
  lemma DrainCons<T>(fetch: Request -> Page<T>, page: Page<T>, start: nat, i: nat, size: nat, total: nat, x: T, d: Outcome<T>)
    requires i < |page.items| && start + i + 1 < total && page.items[i] == Ok(x)
    requires DrainLawsAt(fetch, page, start, i + 1, size, total, d)
    ensures DrainLawsAt(fetch, page, start, i, size, total, Prepend([x], [], d))
  {
    var o := Prepend([x], [], d);
    assert o.requests == d.requests;
    assert page.items[i..] == [page.items[i]] + page.items[i + 1..];
    var rest := page.items[i + 1..] + AllItems(fetch, d.requests);
    assert page.items[i..] + AllItems(fetch, d.requests) == [Ok(x)] + rest;
    YieldsCons(x, rest, d);
  }

  /** The laws for a whole iteration from its `limit`: never more than the
      budget, every page asked with `min(100, total)` items (so at most 100),
      the first request at the given offset, each later one at the previous
      page's non-empty next offset, items in server order, and an early
      stop only after an empty page or a missing next offset. */
  lemma IterateLaws<T>(fetch: Request -> Page<T>, limit: int, offset: string)
    ensures var o := Iterate(fetch, limit, offset);
      && |o.yielded| <= Budget(limit)
      && (forall k :: 0 <= k < |o.requests| ==> o.requests[k].limit == PageSize(Budget(limit)) <= MaxPage)
      && o.requests[0].offset == offset
      && Threaded(fetch, o.requests, PageSize(Budget(limit)))
      && Yields(AllItems(fetch, o.requests), o)
      && (o.error.None? && |o.yielded| < Budget(limit) ==>
            Exhausted(fetch, AllItems(fetch, o.requests), fetch(o.requests[|o.requests| - 1]), o))
  {
    RunLaws(fetch, offset, PageSize(Budget(limit)), Budget(limit), 0);
  }

  /** A page with no items ends the loop whatever its next offset says. */
  lemma EmptyPageStops<T>(fetch: Request -> Page<T>, offset: string, size: nat, total: nat, current: nat)
    requires current < total
    requires |fetch(Request(offset, size)).items| == 0
    ensures Run(fetch, offset, size, total, current) == Outcome([], [Request(offset, size)], None)
  {
  }

  /** Reaching the budget stops the loop in the middle of a page: with a
      page of only good items and room for `n` more, exactly its first `n`
      items come out and no further request is sent. */
  lemma {:induction false} BudgetStopsMidPage<T>(fetch: Request -> Page<T>, page: Page<T>, start: nat, i: nat, size: nat, total: nat)
    requires 0 < |page.items| && i <= |page.items| && start + i < total
    requires total - start <= |page.items|
    requires forall k :: i <= k < |page.items| ==> page.items[k].Ok?
    ensures var o := Drain(fetch, page, start, i, size, total);
      && o.requests == [] && o.error.None?
      && |o.yielded| == total - (start + i)
    decreases |page.items| - i
  {
    assert i < |page.items|;
    if start + i + 1 < total {
      BudgetStopsMidPage(fetch, page, start, i + 1, size, total);
    }
  }
}
