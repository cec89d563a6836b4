/** The market-data task: which tokens are subscribed, and what the outcome-book cache holds for them. */
module MarketData {
  import opened Types
  import opened State

  // ─── Sorted asset ids ───────────────────────────────────────────────────────

  /** Lexicographic order. */
  predicate Leq(a: string, b: string) {
    a == "" || (b != "" && (a[0] < b[0] || (a[0] == b[0] && Leq(a[1..], b[1..]))))
  }

  ghost predicate Before(a: string, b: string) {
    a <= b || exists k :: DiffersAt(a, b, k) && a[k] < b[k]
  }

  lemma BeforeTails(a: string, b: string)
    requires a != "" && b != "" && a[0] == b[0]
    ensures Before(a, b) <==> Before(a[1..], b[1..])
  {
    var s, t := a[1..], b[1..];
    assert a == [a[0]] + s && b == [b[0]] + t;
    if k :| DiffersAt(s, t, k) && s[k] < t[k] {
      assert a[..k + 1] == [a[0]] + s[..k] && b[..k + 1] == [b[0]] + t[..k];
      assert DiffersAt(a, b, k + 1);
    }
    if k :| DiffersAt(a, b, k) && a[k] < b[k] {
      assert s[..k - 1] == a[..k][1..] && t[..k - 1] == b[..k][1..];
      assert DiffersAt(s, t, k - 1);
    }
  }

  /** A beginning comes before the whole; otherwise the first difference decides. */
  lemma {:induction false} LeqIff(a: string, b: string)
    ensures Leq(a, b) <==> Before(a, b)
  {
    if a != "" && b != "" {
      if a[0] == b[0] {
        LeqIff(a[1..], b[1..]);
        BeforeTails(a, b);
      } else {
        assert DiffersAt(a, b, 0);
      }
    }
  }

  ghost predicate DiffersAt(a: string, b: string, k: int) {
    0 <= k < |a| && k < |b| && a[k] != b[k] && a[..k] == b[..k]
  }

  lemma {:induction false} LeqTotal(a: string, b: string)
    ensures Leq(a, b) || Leq(b, a)
  {
    if a != "" && b != "" && a[0] == b[0] {
      LeqTotal(a[1..], b[1..]);
    }
  }

  lemma {:induction false} LeqAntisymmetric(a: string, b: string)
    requires Leq(a, b) && Leq(b, a)
    ensures a == b
  {
    if a != "" && b != "" {
      LeqAntisymmetric(a[1..], b[1..]);
      assert a == [a[0]] + a[1..] && b == [b[0]] + b[1..];
    }
  }

  lemma {:induction false} LeqTransitive(a: string, b: string, c: string)
    requires Leq(a, b) && Leq(b, c)
    ensures Leq(a, c)
  {
    if a != "" && b != "" && c != "" && a[0] == b[0] == c[0] {
      LeqTransitive(a[1..], b[1..], c[1..]);
    }
  }

  ghost predicate Sorted(ids: seq<string>) {
    forall i, j :: 0 <= i < j < |ids| ==> Leq(ids[i], ids[j])
  }

  function Insert(ids: seq<string>, x: string): (r: seq<string>)
    ensures multiset(r) == multiset(ids) + multiset{x}
  {
    if ids == [] then [x]
    else if Leq(x, ids[0]) then [x] + ids
    else
      assert ids == [ids[0]] + ids[1..];
      [ids[0]] + Insert(ids[1..], x)
  }

  lemma {:induction false} InsertSorted(ids: seq<string>, x: string)
    requires Sorted(ids)
    ensures Sorted(Insert(ids, x))
  {
    if ids != [] {
      var r := Insert(ids, x);
      if Leq(x, ids[0]) {
        forall j | 1 <= j < |r| ensures Leq(x, r[j]) {
          if j > 1 { LeqTransitive(x, ids[0], ids[j - 1]); }
        }
      } else {
        LeqTotal(x, ids[0]);
        InsertSorted(ids[1..], x);
        var tail := Insert(ids[1..], x);
        forall j | 0 <= j < |tail| ensures Leq(ids[0], tail[j]) {
          assert tail[j] in multiset(tail);
          assert tail[j] in ids[1..] || tail[j] == x;
        }
      }
    }
  }

  function Sort(ids: seq<string>): (r: seq<string>)
    ensures multiset(r) == multiset(ids)
  {
    if ids == [] then []
    else
      assert ids == ids[..|ids| - 1] + [ids[|ids| - 1]];
      Insert(Sort(ids[..|ids| - 1]), ids[|ids| - 1])
  }

  lemma {:induction false} SortSorts(ids: seq<string>)
    ensures Sorted(Sort(ids))
  {
    if ids != [] {
      SortSorts(ids[..|ids| - 1]);
      InsertSorted(Sort(ids[..|ids| - 1]), ids[|ids| - 1]);
    }
  }

  lemma HeadIsLeast(a: seq<string>, x: string)
    requires Sorted(a) && x in multiset(a)
    ensures Leq(a[0], x)
  {
    LeqTotal(x, x);
  }

  lemma TailOf(a: seq<string>)
    requires a != []
    ensures Sorted(a) ==> Sorted(a[1..])
    ensures multiset(a[1..]) == multiset(a) - multiset{a[0]}
    ensures a[0] in multiset(a)
  {
    assert a == [a[0]] + a[1..];
  }

  /** Two sorted lists of the same ids are the same list. */
  lemma {:induction false} SortedUnique(a: seq<string>, b: seq<string>)
    requires Sorted(a) && Sorted(b) && multiset(a) == multiset(b)
    ensures a == b
    decreases |a|
  {
    assert |a| == |multiset(a)| == |multiset(b)| == |b|;
    if a != [] {
      TailOf(a);
      TailOf(b);
      HeadIsLeast(a, b[0]);
      HeadIsLeast(b, a[0]);
      LeqAntisymmetric(a[0], b[0]);
      SortedUnique(a[1..], b[1..]);
      assert a == [a[0]] + a[1..] && b == [b[0]] + b[1..];
    }
  }

  function TokenIds(outcomes: seq<MarketOutcome>): seq<string> {
    if outcomes == [] then [] else TokenIds(outcomes[..|outcomes| - 1]) + [outcomes[|outcomes| - 1].tokenId]
  }

  function IdsOf(market: Option<Market>): seq<string> {
    match market
    case None => []
    case Some(m) => Sort(TokenIds(m.outcomes))
  }

  /** The id lists compared on every publication are equal exactly when the tokens are the same,
      counting repeats and in any order. */
  lemma IdsEqualIff(a: Market, b: Market)
    ensures IdsOf(Some(a)) == IdsOf(Some(b)) <==> multiset(TokenIds(a.outcomes)) == multiset(TokenIds(b.outcomes))
  {
    SortSorts(TokenIds(a.outcomes));
    SortSorts(TokenIds(b.outcomes));
    if multiset(TokenIds(a.outcomes)) == multiset(TokenIds(b.outcomes)) {
      SortedUnique(IdsOf(Some(a)), IdsOf(Some(b)));
    }
  }

  /** Collect, then sort. */
  method AssetIdsForMarket(market: Market) returns (ids: seq<string>)
    ensures ids == IdsOf(Some(market)) && SortedTokens(ids, Some(market))
  {
    IdsAreSortedTokens(Some(market));
    ids := [];
    for i := 0 to |market.outcomes|
      invariant ids == TokenIds(market.outcomes[..i])
    {
      assert market.outcomes[..i + 1][..i] == market.outcomes[..i];
      ids := ids + [market.outcomes[i].tokenId];
    }
    assert market.outcomes[..|market.outcomes|] == market.outcomes;
    ids := SortIds(ids);
  }

  method SortIds(ids: seq<string>) returns (sorted: seq<string>)
    ensures sorted == Sort(ids)
  {
    sorted := [];
    for i := 0 to |ids|
      invariant sorted == Sort(ids[..i])
    {
      assert ids[..i + 1][..i] == ids[..i];
      sorted := Insert(sorted, ids[i]);
    }
    assert ids[..|ids|] == ids;
  }

  ghost function Tokens(outcomes: seq<MarketOutcome>): seq<string> {
    seq(|outcomes|, i requires 0 <= i < |outcomes| => outcomes[i].tokenId)
  }

  /** The tokens of the market's outcomes, repeats counted, in lexicographic order. */
  ghost predicate SortedTokens(ids: seq<string>, market: Option<Market>) {
    match market
    case None => ids == []
    case Some(m) => multiset(ids) == multiset(Tokens(m.outcomes)) && InOrder(ids)
  }

  ghost predicate InOrder(ids: seq<string>) {
    forall i, j :: 0 <= i < j < |ids| ==> Before(ids[i], ids[j])
  }

  lemma {:induction false} TokenIdsAre(outcomes: seq<MarketOutcome>)
    ensures TokenIds(outcomes) == Tokens(outcomes)
  {
    if outcomes != [] {
      TokenIdsAre(outcomes[..|outcomes| - 1]);
    }
  }

  lemma SortedInOrder(ids: seq<string>)
    requires Sorted(ids)
    ensures InOrder(ids)
  {
    forall i, j | 0 <= i < j < |ids| ensures Before(ids[i], ids[j]) {
      LeqIff(ids[i], ids[j]);
    }
  }

  lemma IdsAreSortedTokens(market: Option<Market>)
    ensures SortedTokens(IdsOf(market), market)
  {
    match market
    case None =>
    case Some(m) =>
      TokenIdsAre(m.outcomes);
      SortSorts(TokenIds(m.outcomes));
      SortedInOrder(Sort(TokenIds(m.outcomes)));
  }

  // ─── The subscription ───────────────────────────────────────────────────────

  /** `feed` is the id list the live feed was connected with. */
  datatype Subscription = Subscription(feed: Option<seq<string>>, currentIds: seq<string>, books: Books)

  datatype DataEvent = MarketChanged(market: Option<Market>) | BookUpdate(book: OutcomeBook) | FeedError

  function Connect(ids: seq<string>): Option<seq<string>> {
    if ids == [] then None else Some(ids)
  }

  function Start(market: Option<Market>): Subscription {
    Subscription(Connect(IdsOf(market)), IdsOf(market), map[])
  }

  /** A live feed yields only tokens it subscribed to. */
  predicate FeedKeepsToIds(s: Subscription, e: DataEvent) {
    e.BookUpdate? ==> s.feed.Some? && e.book.tokenId in s.feed.value
  }

  function On(s: Subscription, e: DataEvent): Subscription {
    match e
    case MarketChanged(m) =>
      if IdsOf(m) == s.currentIds then s else Subscription(Connect(IdsOf(m)), IdsOf(m), map[])
    case BookUpdate(b) => s.(books := s.books[b.tokenId := b])
    case FeedError => s.(feed := None, currentIds := [])
  }

  class MarketDataTask {
    var feed: Option<seq<string>>
    var currentIds: seq<string>
    const cache: OutcomeBookCache

    function View(): Subscription reads this, cache {
      Subscription(feed, currentIds, cache.books)
    }

    constructor (market: Option<Market>)
      ensures fresh(cache) && View() == Start(market)
      ensures SortedTokens(currentIds, market) && cache.books == map[]
      ensures feed == if currentIds == [] then None else Some(currentIds)
    {
      feed := None;
      currentIds := [];
      cache := new OutcomeBookCache();
      new;
      if market.Some? {
        var ids := AssetIdsForMarket(market.value);
        if ids != [] {
          currentIds := ids;
          feed := Some(ids);
        }
      }
    }

    method OnMarketChanged(market: Option<Market>)
      modifies this, cache
      ensures View() == On(old(View()), MarketChanged(market))
      ensures SortedTokens(currentIds, market)
      ensures currentIds == old(currentIds) ==> View() == old(View())
      ensures currentIds != old(currentIds) ==>
                cache.books == map[] && feed == if currentIds == [] then None else Some(currentIds)
    {
      var newIds: seq<string> := [];
      if market.Some? {
        newIds := AssetIdsForMarket(market.value);
      }
      if newIds == currentIds {
        return;
      }
      cache.Clear();
      currentIds := newIds;
      feed := if newIds == [] then None else Some(newIds);
    }

    method OnBook(book: OutcomeBook)
      modifies cache
      ensures View() == On(old(View()), BookUpdate(book))
      ensures cache.books == old(cache.books)[book.tokenId := book]
    {
      cache.Update(book);
    }

    method OnFeedError()
      modifies this
      ensures View() == On(old(View()), FeedError)
      ensures feed.None? && currentIds == []
    {
      feed := None;
      currentIds := [];
    }
  }

  // ─── Runs of the task ───────────────────────────────────────────────────────

  function After(start: Option<Market>, events: seq<DataEvent>): Subscription {
    if events == [] then Start(start)
    else On(After(start, events[..|events| - 1]), events[|events| - 1])
  }

  ghost predicate FeedsBehave(start: Option<Market>, events: seq<DataEvent>) {
    forall i :: 0 <= i < |events| ==> FeedKeepsToIds(After(start, events[..i]), events[i])
  }

  /** The updates since the tokens last changed. */
  function SinceRebuild(start: Option<Market>, events: seq<DataEvent>): seq<OutcomeBook> {
    if events == [] then []
    else
      var init := events[..|events| - 1];
      match events[|events| - 1]
      case BookUpdate(b) => SinceRebuild(start, init) + [b]
      case FeedError => SinceRebuild(start, init)
      case MarketChanged(m) => if IdsOf(m) == After(start, init).currentIds then SinceRebuild(start, init) else []
  }

  /** Position `i` is the newest update for its token. */
  ghost predicate LastWrite(updates: seq<OutcomeBook>, tokenId: string, i: int) {
    0 <= i < |updates| && updates[i].tokenId == tokenId && forall k :: i < k < |updates| ==> updates[k].tokenId != tokenId
  }

  /** The cache holds exactly the newest update of every token updated. */
  ghost predicate LastWriteWins(books: Books, updates: seq<OutcomeBook>) {
    && (forall t :: t in books ==> exists i :: LastWrite(updates, t, i) && books[t] == updates[i])
    && (forall i :: 0 <= i < |updates| ==> updates[i].tokenId in books)
  }

  lemma LastWriteStep(books: Books, updates: seq<OutcomeBook>, b: OutcomeBook)
    requires LastWriteWins(books, updates)
    ensures LastWriteWins(books[b.tokenId := b], updates + [b])
  {
    var more := updates + [b];
    var next := books[b.tokenId := b];
    forall t | t in next ensures exists i :: LastWrite(more, t, i) && next[t] == more[i] {
      if t == b.tokenId {
        assert LastWrite(more, t, |updates|);
      } else {
        var i :| LastWrite(updates, t, i) && books[t] == updates[i];
        assert LastWrite(more, t, i);
      }
    }
  }

  /** Feed and id list agree, and the cache is the fold of the updates since the last rebuild. */
  lemma {:induction false} CacheIsFold(start: Option<Market>, events: seq<DataEvent>)
    ensures var s := After(start, events);
            && s.feed == Connect(s.currentIds)
            && LastWriteWins(s.books, SinceRebuild(start, events))
  {
    if events != [] {
      var init, last := events[..|events| - 1], events[|events| - 1];
      CacheIsFold(start, init);
      if last.BookUpdate? {
        LastWriteStep(After(start, init).books, SinceRebuild(start, init), last.book);
      }
    }
  }

  lemma {:induction false} KeysSubscribed(start: Option<Market>, events: seq<DataEvent>)
    requires FeedsBehave(start, events)
    ensures var s := After(start, events); s.feed.Some? ==> forall t :: t in s.books ==> t in s.currentIds
  {
    if events != [] {
      var init, last := events[..|events| - 1], events[|events| - 1];
      forall i | 0 <= i < |init| ensures FeedKeepsToIds(After(start, init[..i]), init[i]) {
        assert init[..i] == events[..i];
      }
      KeysSubscribed(start, init);
      CacheIsFold(start, init);
      assert FeedKeepsToIds(After(start, events[..|init|]), events[|init|]);
    }
  }

  /** Whenever a feed is live, every cached token is subscribed and the cache is the last-write-wins
      fold of the updates since the tokens last changed. */
  lemma CacheAgreesWithSubscription(start: Option<Market>, events: seq<DataEvent>)
    requires FeedsBehave(start, events) && After(start, events).feed.Some?
    ensures var s := After(start, events);
            && s.feed.value == s.currentIds
            && (forall t :: t in s.books ==> t in s.currentIds)
            && LastWriteWins(s.books, SinceRebuild(start, events))
  {
    CacheIsFold(start, events);
    KeysSubscribed(start, events);
  }

  /** While a feed for market `m` is live, another publication leaves everything alone exactly when it
      is of the same tokens: republishing a status never clears the cache, a rotation always does. */
  lemma RepublicationKeepsIff(s: Subscription, m: Market, next: Market)
    requires s.feed == Some(s.currentIds) && s.currentIds == IdsOf(Some(m)) && s.currentIds != []
    ensures On(s, MarketChanged(Some(next))) == s <==>
              multiset(TokenIds(next.outcomes)) == multiset(TokenIds(m.outcomes))
    ensures On(s, MarketChanged(Some(next))) != s ==> On(s, MarketChanged(Some(next))).books == map[]
  {
    IdsEqualIff(m, next);
  }

  /** After a feed error the cache keeps what the dead feed wrote; the next publication with any
      token clears it, even one of the same market. */
  lemma ErrorLeavesStaleBooks(start: Option<Market>, events: seq<DataEvent>, next: Option<Market>)
    ensures var s := After(start, events + [FeedError]);
            && s.feed.None? && s.books == After(start, events).books
            && On(s, MarketChanged(next)).books == (if IdsOf(next) == [] then s.books else map[])
  {
    assert (events + [FeedError])[..|events|] == events;
  }
}
