/** `StarsStatus._parse`: the Stars balance with the subscriptions and the
    transaction history that came with it. */
module StarsStatuses {
  import opened Wrappers
  import opened Raw
  import StarsAmounts
  import StarsTransactions
  import StarsSubscriptions

  datatype RawStarsStatus = RawStarsStatus(
    balance: Option<StarsAmounts.RawStarsAmount>,
    subscriptions: seq<StarsSubscriptions.RawStarsSubscription>,
    subscriptionsNextOffset: Option<string>,
    subscriptionsMissingBalance: Option<int>,
    history: seq<StarsTransactions.RawStarsTransaction>,
    nextOffset: Option<string>,
    chats: seq<RawChat>,
    users: seq<RawUser>)

  datatype StarsStatus = StarsStatus(
    balance: Option<StarsAmounts.StarsAmount>,
    subscriptions: Option<seq<StarsSubscriptions.StarsSubscription>>,
    subscriptionsNextOffset: Option<string>,
    subscriptionsMissingBalance: Option<int>,
    history: Option<seq<StarsTransactions.StarsTransaction>>,
    historyNextOffset: Option<string>)

  /** The users table: the caller's when it passes one (even an empty one),
      otherwise built from the envelope. */
  function UsersFor(s: RawStarsStatus, users: Option<map<int, RawUser>>): (m: map<int, RawUser>)
    ensures users.Some? ==> m == users.value
    ensures users.None? ==> m == UserTable(s.users)
  {
    if users.None? then UserTable(s.users) else users.value
  }

  /** The chats table, chosen the same way. */
  function ChatsFor(s: RawStarsStatus, chats: Option<map<int, RawChat>>): (m: map<int, RawChat>)
    ensures chats.Some? ==> m == chats.value
    ensures chats.None? ==> m == ChatTable(s.chats)
  {
    if chats.None? then ChatTable(s.chats) else chats.value
  }

  function SubscriptionDecoder(users: map<int, RawUser>, chats: map<int, RawChat>)
    : StarsSubscriptions.RawStarsSubscription -> Result<StarsSubscriptions.StarsSubscription>
  {
    x => StarsSubscriptions.Parse(x, users, chats)
  }

  function TransactionDecoder(users: map<int, RawUser>, chats: map<int, RawChat>)
    : StarsTransactions.RawStarsTransaction -> Result<StarsTransactions.StarsTransaction>
  {
    x => StarsTransactions.Parse(x, users, chats)
  }

  /** `StarsStatus._parse`: every subscription, then every transaction,
      decoded with the chosen tables (the first that raises propagates); an
      empty list reads as None; the offsets and the balance are copied. */
  function Parse(s: RawStarsStatus, users: Option<map<int, RawUser>>, chats: Option<map<int, RawChat>>)
    : Result<StarsStatus>
  {
    var u := UsersFor(s, users);
    var c := ChatsFor(s, chats);
    var subscriptions :- Traverse(SubscriptionDecoder(u, c), s.subscriptions);
    var history :- Traverse(TransactionDecoder(u, c), s.history);
    Ok(StarsStatus(
      StarsAmounts.Parse(s.balance), NonEmpty(subscriptions), s.subscriptionsNextOffset,
      s.subscriptionsMissingBalance, NonEmpty(history), s.nextOffset))
  }

  /** What the decoded status holds: it exists exactly when every
      subscription and every transaction decodes with the chosen tables;
      each list then has one entry per raw entry, in order (None when
      empty), and `history_next_offset` is the raw `next_offset`. A
      failure is the first subscription's error, or if none fails, the
      first transaction's. */
  lemma {:induction false} ParseLaws(s: RawStarsStatus, users: Option<map<int, RawUser>>, chats: Option<map<int, RawChat>>)
    ensures var u := UsersFor(s, users); var c := ChatsFor(s, chats);
      Parse(s, users, chats).Ok? <==>
        && (forall k :: 0 <= k < |s.subscriptions| ==> StarsSubscriptions.Parse(s.subscriptions[k], u, c).Ok?)
        && (forall k :: 0 <= k < |s.history| ==> StarsTransactions.Parse(s.history[k], u, c).Ok?)
    ensures var u := UsersFor(s, users); var c := ChatsFor(s, chats); var r := Parse(s, users, chats);
      r.Ok? ==>
        && (r.value.subscriptions.None? <==> |s.subscriptions| == 0)
        && |Items(r.value.subscriptions)| == |s.subscriptions|
        && (forall k :: 0 <= k < |s.subscriptions| ==>
              StarsSubscriptions.Parse(s.subscriptions[k], u, c) == Ok(Items(r.value.subscriptions)[k]))
        && (r.value.history.None? <==> |s.history| == 0)
        && |Items(r.value.history)| == |s.history|
        && (forall k :: 0 <= k < |s.history| ==>
              StarsTransactions.Parse(s.history[k], u, c) == Ok(Items(r.value.history)[k]))
        && r.value.historyNextOffset == s.nextOffset
        && r.value.subscriptionsNextOffset == s.subscriptionsNextOffset
        && r.value.subscriptionsMissingBalance == s.subscriptionsMissingBalance
        && r.value.balance == StarsAmounts.Parse(s.balance)
    ensures var u := UsersFor(s, users); var c := ChatsFor(s, chats); var r := Parse(s, users, chats);
      r.Err? ==>
        || (exists k :: FirstError(SubscriptionDecoder(u, c), s.subscriptions, k, r.error))
        || (&& Traverse(SubscriptionDecoder(u, c), s.subscriptions).Ok?
            && exists k :: FirstError(TransactionDecoder(u, c), s.history, k, r.error))
  {
    var u := UsersFor(s, users);
    var c := ChatsFor(s, chats);
    TraverseLaws(SubscriptionDecoder(u, c), s.subscriptions);
    TraverseLaws(TransactionDecoder(u, c), s.history);
  }
}
