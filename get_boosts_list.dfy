/** `get_boosts_list`: the boosts of a channel as a paginated generator.
    Each answer's boosts are all decoded before the first of them is
    yielded; the generator's yields are collected in order into the outcome. */
module GetBoostsList {
  import opened Wrappers
  import opened Raw
  import opened Pagination
  import Boosts

  /** One `premium.GetBoostsList` answer. */
  datatype RawBoostsPage = RawBoostsPage(
    boosts: seq<Boosts.RawBoost>,
    users: seq<RawUser>,
    nextOffset: Option<string>)

  /** The page an answer stands for: every boost decodes, with the user
      table of this answer alone. */
  function Decode(a: RawBoostsPage): (p: Page<Boosts.Boost>)
    ensures |p.items| == |a.boosts| && p.nextOffset == a.nextOffset
    ensures forall k :: 0 <= k < |p.items| ==> p.items[k].Ok?
  {
    var bs := Boosts.ParseList(a.boosts, UserTable(a.users));
    Page(seq(|bs|, k requires 0 <= k < |bs| => Ok(bs[k])), a.nextOffset)
  }

  function Pages(server: Request -> RawBoostsPage): Request -> Page<Boosts.Boost> {
    req => Decode(server(req))
  }

  /** The `for boost in boosts` loop over one non-empty decoded list: each
      boost yielded, then counted, stopping once the count reaches the
      budget. `stopped` says the budget ended the loop. */
  method YieldPage(answer: RawBoostsPage, boosts: seq<Boosts.Boost>, start: nat, size: nat, total: nat,
                   ghost fetch: Request -> Page<Boosts.Boost>)
    returns (items: seq<Boosts.Boost>, stopped: bool)
    requires boosts == Boosts.ParseList(answer.boosts, UserTable(answer.users))
    requires 0 < |boosts| && start < total
    ensures var page := Decode(answer);
      stopped ==> Drain(fetch, page, start, 0, size, total) == Outcome(items, [], None)
    ensures var page := Decode(answer);
      !stopped ==>
        && |items| == |boosts| && start + |items| < total
        && Drain(fetch, page, start, 0, size, total) == Prepend(items, [], Drain(fetch, page, start, |items|, size, total))
  {
    ghost var page := Decode(answer);
    items := [];
    var current := start;
    var i := 0;
    while i < |boosts|
      invariant 0 <= i <= |boosts| && |items| == i && current == start + i
      invariant current < total
      invariant Drain(fetch, page, start, 0, size, total) == Prepend(items, [], Drain(fetch, page, start, i, size, total))
      decreases |boosts| - i
    {
      var boost := boosts[i];
      assert page.items[i] == Ok(boost);
      DrainItem(fetch, page, start, i, size, total, items);
      current := current + 1;
      if current >= total {
        return items + [boost], true;
      }
      items := items + [boost];
      i := i + 1;
    }
    return items, false;
  }

  /** The loop as written: budget, page size, one request per page, each
      page's boosts yielded in order, and the next offset threaded into the
      next request. */
  method GetBoostsList(server: Request -> RawBoostsPage, limit: int, offset: string)
    returns (o: Outcome<Boosts.Boost>)
    ensures o == Iterate(Pages(server), limit, offset)
  {
    ghost var fetch := Pages(server);
    ghost var goal := Iterate(fetch, limit, offset);
    var current: nat := 0;
    var total := Budget(limit);
    var size := PageSize(total);
    var next := offset;
    var yielded: seq<Boosts.Boost> := [];
    var requests: seq<Request> := [];
    while true
      invariant current < total
      invariant Prepend(yielded, requests, Run(fetch, next, size, total, current)) == goal
      decreases total - current
    {
      var req := Request(next, size);
      var answer := server(req);
      assert fetch(req) == Decode(answer);
      var users := UserTable(answer.users);
      var boosts := Boosts.ParseList(answer.boosts, users);
      if |boosts| == 0 {
        PageEmpty(fetch, yielded, requests, next, size, total, current);
        return Outcome(yielded, requests + [req], None);
      }
      var items, stopped := YieldPage(answer, boosts, current, size, total, fetch);
      if stopped {
        PageStopped(fetch, yielded, requests, next, size, total, current, items, None);
        return Outcome(yielded + items, requests + [req], None);
      }
      if answer.nextOffset.None? || answer.nextOffset.value == "" {
        PageLast(fetch, yielded, requests, next, size, total, current, items);
        return Outcome(yielded + items, requests + [req], None);
      }
      PageNext(fetch, yielded, requests, next, size, total, current, items);
      yielded := yielded + items;
      requests := requests + [req];
      current := current + |items|;
      next := answer.nextOffset.value;
    }
  }

  /** No boost answer ever ends the iteration with an error. */
  lemma NeverFails(server: Request -> RawBoostsPage, limit: int, offset: string)
    ensures Iterate(Pages(server), limit, offset).error.None?
  {
    var fetch := Pages(server);
    IterateLaws(fetch, limit, offset);
    AllItemsOk(server, Iterate(fetch, limit, offset).requests);
  }

  lemma {:induction false} AllItemsOk(server: Request -> RawBoostsPage, rs: seq<Request>)
    ensures forall k :: 0 <= k < |AllItems(Pages(server), rs)| ==> AllItems(Pages(server), rs)[k].Ok?
    decreases |rs|
  {
    if rs != [] {
      AllItemsOk(server, rs[1..]);
    }
  }
}
