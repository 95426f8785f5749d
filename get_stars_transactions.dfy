/** `get_stars_transactions`: the Stars history as a paginated generator.
    The generator's yields are collected in order into the outcome. */
module GetStarsTransactions {
  import opened Wrappers
  import opened Raw
  import opened Pagination
  import StarsTransactions

  /** One `payments.GetStarsTransactions` answer. */
  datatype RawStarsPage = RawStarsPage(
    history: seq<StarsTransactions.RawStarsTransaction>,
    users: seq<RawUser>,
    chats: seq<RawChat>,
    nextOffset: Option<string>)

  /** The page an answer stands for: each transaction decoded with the
      tables built from this answer alone. */
  function Decode(a: RawStarsPage): (p: Page<StarsTransactions.StarsTransaction>)
    ensures |p.items| == |a.history| && p.nextOffset == a.nextOffset
  {
    Page(seq(|a.history|, k requires 0 <= k < |a.history| =>
               StarsTransactions.Parse(a.history[k], UserTable(a.users), ChatTable(a.chats))),
         a.nextOffset)
  }

  function Pages(server: Request -> RawStarsPage): Request -> Page<StarsTransactions.StarsTransaction> {
    req => Decode(server(req))
  }

  /** The inner loop over one non-empty answer: each transaction decoded
      just before it is yielded, stopping at a decoding error or when the
      count reaches the budget. `stop` is None when the whole page was
      yielded without reaching the budget. */
  method YieldPage(answer: RawStarsPage, start: nat, size: nat, total: nat,
                   ghost fetch: Request -> Page<StarsTransactions.StarsTransaction>)
    returns (items: seq<StarsTransactions.StarsTransaction>, stop: Option<Option<Error>>)
    requires 0 < |answer.history| && start < total
    ensures var page := Decode(answer);
      stop.Some? ==> Drain(fetch, page, start, 0, size, total) == Outcome(items, [], stop.value)
    ensures var page := Decode(answer);
      stop.None? ==>
        && |items| == |answer.history| && start + |items| < total
        && Drain(fetch, page, start, 0, size, total) == Prepend(items, [], Drain(fetch, page, start, |items|, size, total))
  {
    ghost var page := Decode(answer);
    var users := UserTable(answer.users);
    var chats := ChatTable(answer.chats);
    items := [];
    var i := 0;
    while i < |answer.history|
      invariant 0 <= i <= |answer.history| && |items| == i
      invariant start + i < total
      invariant Drain(fetch, page, start, 0, size, total) == Prepend(items, [], Drain(fetch, page, start, i, size, total))
      decreases |answer.history| - i
    {
      var item := StarsTransactions.Parse(answer.history[i], users, chats);
      assert page.items[i] == item;
      DrainItem(fetch, page, start, i, size, total, items);
      if item.Err? {
        return items, Some(Some(item.error));
      }
      if start + i + 1 >= total {
        return items + [item.value], Some(None);
      }
      items := items + [item.value];
      i := i + 1;
    }
    return items, None;
  }

  /** The loop as written: budget, page size, one request per page, each
      page's items yielded in order, and the next offset threaded into the
      next request. */
  method GetStarsTransactions(server: Request -> RawStarsPage, limit: int, offset: string)
    returns (o: Outcome<StarsTransactions.StarsTransaction>)
    ensures o == Iterate(Pages(server), limit, offset)
  {
    ghost var fetch := Pages(server);
    ghost var goal := Iterate(fetch, limit, offset);
    var current: nat := 0;
    var total := Budget(limit);
    var size := PageSize(total);
    var next := offset;
    var yielded: seq<StarsTransactions.StarsTransaction> := [];
    var requests: seq<Request> := [];
    while true
      invariant current < total
      invariant Prepend(yielded, requests, Run(fetch, next, size, total, current)) == goal
      decreases total - current
    {
      var req := Request(next, size);
      var answer := server(req);
      assert fetch(req) == Decode(answer);
      if |answer.history| == 0 {
        PageEmpty(fetch, yielded, requests, next, size, total, current);
        return Outcome(yielded, requests + [req], None);
      }
      var items, stop := YieldPage(answer, current, size, total, fetch);
      if stop.Some? {
        PageStopped(fetch, yielded, requests, next, size, total, current, items, stop.value);
        return Outcome(yielded + items, requests + [req], stop.value);
      }
      if answer.nextOffset.None? || answer.nextOffset.value == "" {
        PageLast(fetch, yielded, requests, next, size, total, current, items);
        return Outcome(yielded + items, requests + [req], None);
      }
      PageNext(fetch, yielded, requests, next, size, total, current, items);
      yielded := yielded + items;
      requests := requests + [req];
      current := current + |items|;
      next := answer.nextOffset.value;
    }
  }
}
