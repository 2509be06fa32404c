/** The feed window of the recent-operations widget: the live-event filter and
    bounded prepend, the first-page load with its paging token, the update of a
    record's creation time by id, and the periodic age refresh. Each operation is
    specified by a function on the window value, and the class at the end holds
    the window and performs the operations step by step. */
module Feed {
  import opened Records
  import Query

  // ---------------------------------------------------------------------------
  // Live events

  /** A live event concerns the configured account when it is the event's source,
      its `to` or its `trustee`; with no account configured every event does. */
  predicate Relevant(account: Option<Account>, op: Operation) {
    !HasAccount(account) ||
    account.value == op.sourceAccount ||
    Destination(op.kind) == Some(account.value) ||
    Trustee(op.kind) == Some(account.value)
  }

  /** Which live events the filter keeps. In particular the funded account of an
      account creation and the target of a merge do not make an event relevant. */
  lemma FilterDecision(account: Option<Account>, op: Operation)
    ensures !HasAccount(account) ==> Relevant(account, op)
    ensures HasAccount(account) ==>
      (Relevant(account, op) <==>
         account.value == op.sourceAccount ||
         (op.kind.Payment? && op.kind.to == account.value) ||
         (op.kind.PathPayment? && op.kind.to == account.value) ||
         (op.kind.ChangeTrust? && op.kind.trustee == account.value) ||
         (op.kind.AllowTrust? && op.kind.trustee == account.value) ||
         (op.kind.Other? && (op.kind.rawTo == Some(account.value) || op.kind.rawTrustee == Some(account.value))))
    ensures HasAccount(account) && op.sourceAccount != account.value && (op.kind.CreateAccount? || op.kind.AccountMerge?) ==>
      !Relevant(account, op)
  {
  }

  /** A live event as it enters the window: its creation time is the arrival
      instant, and nothing else about it changes. */
  function Stamped(op: Operation, now: Moment): (r: Operation)
    ensures r.createdAt == Some(now)
    ensures r.(createdAt := op.createdAt) == op
  {
    op.(createdAt := Some(now))
  }

  /** The window after a kept live event: the event is put in front, then the
      last element is removed, whatever the window's length. */
  function Prepended(window: seq<Operation>, op: Operation): (r: seq<Operation>)
    ensures |r| == |window|
    ensures |window| > 0 ==> r[0] == op
    ensures forall i :: 1 <= i < |window| ==> r[i] == window[i - 1]
  {
    var unshifted := [op] + window;
    unshifted[..|unshifted| - 1]
  }

  /** Exactly one element leaves the window on a prepend: the previous last
      element, or the event itself when the window was empty. */
  lemma PrependEvictsTail(window: seq<Operation>, op: Operation)
    ensures var evicted := if window == [] then op else window[|window| - 1];
            multiset(Prepended(window, op)) + multiset{evicted} == multiset(window) + multiset{op}
  {
    var unshifted := [op] + window;
    var evicted := if window == [] then op else window[|window| - 1];
    assert unshifted == Prepended(window, op) + [evicted];
    assert multiset(unshifted) == multiset{op} + multiset(window);
  }

  /** One live event: filtered, stamped and prepended. */
  function LiveStep(account: Option<Account>, window: seq<Operation>, op: Operation, now: Moment): (r: seq<Operation>)
    ensures !Relevant(account, op) ==> r == window
    ensures Relevant(account, op) ==> r == Prepended(window, Stamped(op, now))
  {
    if Relevant(account, op) then Prepended(window, Stamped(op, now)) else window
  }

  /** A live event with the instant it arrived. */
  datatype Arrival = Arrival(op: Operation, at: Moment)

  /** The window after a series of live events, in arrival order. */
  function Replay(account: Option<Account>, window: seq<Operation>, arrivals: seq<Arrival>): seq<Operation>
    decreases |arrivals|
  {
    if arrivals == [] then window
    else Replay(account, LiveStep(account, window, arrivals[0].op, arrivals[0].at), arrivals[1..])
  }

  /** No series of live events changes the window's length, so the window never
      exceeds a capacity that it respected after the first page. */
  lemma {:induction false} ReplayKeepsLength(account: Option<Account>, window: seq<Operation>, arrivals: seq<Arrival>)
    ensures |Replay(account, window, arrivals)| == |window|
    decreases |arrivals|
  {
    if arrivals != [] {
      ReplayKeepsLength(account, LiveStep(account, window, arrivals[0].op, arrivals[0].at), arrivals[1..]);
    }
  }

  // ---------------------------------------------------------------------------
  // First page

  /** Whether the paging token is set (it is tested for truthiness). */
  predicate Truthy(token: Option<string>) {
    token.Some? && token.value != ""
  }

  /** The paging token after the records of a page were walked in order: while
      the token is unset it is overwritten by each record's token. */
  function NextPagingToken(token: Option<string>, page: seq<Operation>): Option<string>
    decreases |page|
  {
    if page == [] then token
    else NextPagingToken(if Truthy(token) then token else Some(page[0].pagingToken), page[1..])
  }

  /** A set paging token is never replaced. */
  lemma {:induction false} PagingTokenKept(token: Option<string>, page: seq<Operation>)
    requires Truthy(token)
    ensures NextPagingToken(token, page) == token
    decreases |page|
  {
    if page != [] {
      PagingTokenKept(token, page[1..]);
    }
  }

  /** An unset paging token becomes the token of the first record of the page
      whose token is non-empty: the newest record's, when it has one. */
  lemma {:induction false} PagingTokenIsFirstNonEmpty(token: Option<string>, page: seq<Operation>, k: nat)
    requires !Truthy(token)
    requires k < |page| && page[k].pagingToken != ""
    requires forall j :: 0 <= j < k ==> page[j].pagingToken == ""
    ensures NextPagingToken(token, page) == Some(page[k].pagingToken)
    decreases k
  {
    if k == 0 {
      PagingTokenKept(Some(page[0].pagingToken), page[1..]);
    } else {
      assert page[0].pagingToken == "";
      assert page[1..][k - 1] == page[k];
      PagingTokenIsFirstNonEmpty(Some(page[0].pagingToken), page[1..], k - 1);
    }
  }

  /** An unset paging token becomes the empty token when every record of a
      non-empty page has an empty one, and stays as it is on an empty page. */
  lemma {:induction false} PagingTokenAllEmpty(token: Option<string>, page: seq<Operation>)
    requires !Truthy(token)
    requires forall j :: 0 <= j < |page| ==> page[j].pagingToken == ""
    ensures NextPagingToken(token, page) == if page == [] then token else Some("")
    decreases |page|
  {
    if page != [] {
      assert forall j :: 0 <= j < |page| - 1 ==> page[1..][j] == page[j + 1];
      PagingTokenAllEmpty(Some(page[0].pagingToken), page[1..]);
    }
  }

  // ---------------------------------------------------------------------------
  // Creation time by id

  /** A record with its creation time and age text set. */
  function WithTime(op: Operation, createdAt: Moment, ago: string): (r: Operation)
    ensures r.createdAt == Some(createdAt) && r.ago == Some(ago)
    ensures r.(createdAt := op.createdAt, ago := op.ago) == op
  {
    op.(createdAt := Some(createdAt), ago := Some(ago))
  }

  /** The window after the creation time of record `id` arrived: the first record
      with that id gets the time and its age text. */
  function Enriched(window: seq<Operation>, id: string, createdAt: Moment, ago: string): (r: seq<Operation>)
    ensures |r| == |window|
    decreases |window|
  {
    if window == [] then []
    else if window[0].id == id then [WithTime(window[0], createdAt, ago)] + window[1..]
    else [window[0]] + Enriched(window[1..], id, createdAt, ago)
  }

  /** A creation time for an id no longer in the window (evicted meanwhile)
      leaves the window as it is. */
  lemma {:induction false} EnrichAbsentIsNoOp(window: seq<Operation>, id: string, createdAt: Moment, ago: string)
    requires forall i :: 0 <= i < |window| ==> window[i].id != id
    ensures Enriched(window, id, createdAt, ago) == window
    decreases |window|
  {
    if window != [] {
      EnrichAbsentIsNoOp(window[1..], id, createdAt, ago);
    }
  }

  /** Only the first record with the id changes, and only in its creation time
      and age text; length, order and every other record stay. */
  lemma {:induction false} EnrichFirstMatch(window: seq<Operation>, id: string, createdAt: Moment, ago: string, k: nat)
    requires k < |window| && window[k].id == id
    requires forall j :: 0 <= j < k ==> window[j].id != id
    ensures Enriched(window, id, createdAt, ago) == window[k := WithTime(window[k], createdAt, ago)]
    decreases k
  {
    if k > 0 {
      EnrichFirstMatch(window[1..], id, createdAt, ago, k - 1);
      assert [window[0]] + window[1..][k - 1 := WithTime(window[k], createdAt, ago)]
          == window[k := WithTime(window[k], createdAt, ago)];
    }
  }

  /** Record ids are distinct within the window. */
  predicate DistinctIds(window: seq<Operation>) {
    forall i, j :: 0 <= i < j < |window| ==> window[i].id != window[j].id
  }

  /** A creation time that arrives after its record was evicted by a live event
      does not change the window. */
  lemma EnrichAfterEviction(window: seq<Operation>, op: Operation, createdAt: Moment, ago: string)
    requires |window| > 0 && DistinctIds(window)
    requires op.id != window[|window| - 1].id
    ensures var evictedId := window[|window| - 1].id;
            Enriched(Prepended(window, op), evictedId, createdAt, ago) == Prepended(window, op)
  {
    var r := Prepended(window, op);
    var evictedId := window[|window| - 1].id;
    forall i | 0 <= i < |r| ensures r[i].id != evictedId {
      if i > 0 {
        assert r[i] == window[i - 1];
      }
    }
    EnrichAbsentIsNoOp(r, evictedId, createdAt, ago);
  }

  // ---------------------------------------------------------------------------
  // Age refresh

  /** A record whose age text is recomputed from its creation time. */
  function Aged(op: Operation, now: Moment, fromNow: AgeFn): (r: Operation)
    requires op.createdAt.Some?
    ensures r.ago == Some(fromNow(op.createdAt.value, now))
    ensures r.(ago := op.ago) == op
  {
    op.(ago := Some(fromNow(op.createdAt.value, now)))
  }

  /** The index of the first record without a creation time; the length when
      every record has one. */
  function FirstUntimed(window: seq<Operation>): (k: nat)
    ensures k <= |window|
    ensures forall i :: 0 <= i < k ==> window[i].createdAt.Some?
    ensures k < |window| ==> window[k].createdAt.None?
    decreases |window|
  {
    if window == [] || window[0].createdAt.None? then 0 else 1 + FirstUntimed(window[1..])
  }

  /** The window after one age refresh. Recomputing the age of a record without
      a creation time fails, and the refresh stops there; the records before it
      have already been updated in place. */
  function Refreshed(window: seq<Operation>, now: Moment, fromNow: AgeFn): (r: seq<Operation>)
    decreases |window|
  {
    if window == [] then []
    else if window[0].createdAt.None? then window
    else [Aged(window[0], now, fromNow)] + Refreshed(window[1..], now, fromNow)
  }

  /** Every record before the first untimed one has its age recomputed, and it
      and every record after it is left as it was; length, order, ids and all
      other fields are kept. */
  lemma {:induction false} RefreshedShape(window: seq<Operation>, now: Moment, fromNow: AgeFn)
    ensures |Refreshed(window, now, fromNow)| == |window|
    ensures forall i :: 0 <= i < FirstUntimed(window) ==> Refreshed(window, now, fromNow)[i] == Aged(window[i], now, fromNow)
    ensures forall i :: FirstUntimed(window) <= i < |window| ==> Refreshed(window, now, fromNow)[i] == window[i]
    decreases |window|
  {
    if window != [] && window[0].createdAt.Some? {
      RefreshedShape(window[1..], now, fromNow);
      var r := Refreshed(window, now, fromNow);
      var rest := Refreshed(window[1..], now, fromNow);
      assert r == [Aged(window[0], now, fromNow)] + rest;
      forall i | 0 < i < |window| ensures r[i] == rest[i - 1] && window[1..][i - 1] == window[i] {
      }
    }
  }

  /** When every record has a creation time, every age is recomputed. */
  lemma RefreshAllTimed(window: seq<Operation>, now: Moment, fromNow: AgeFn)
    requires forall i :: 0 <= i < |window| ==> window[i].createdAt.Some?
    ensures |Refreshed(window, now, fromNow)| == |window|
    ensures forall i :: 0 <= i < |window| ==> Refreshed(window, now, fromNow)[i] == Aged(window[i], now, fromNow)
  {
    RefreshedShape(window, now, fromNow);
  }

  // ---------------------------------------------------------------------------
  // The behaviour evidently intended, beside the code's behaviour above:
  // evict only when the window would exceed `limit`, and skip records that
  // have no creation time

  /** The capacity rule: the tail is evicted only when the window
      would otherwise exceed its capacity. */
  function PrependCapped(window: seq<Operation>, op: Operation, limit: nat): (r: seq<Operation>)
    requires |window| <= limit
    ensures |r| <= limit
    ensures |r| == if |window| < limit then |window| + 1 else |window|
    ensures 0 < limit ==> r[0] == op
    ensures forall i :: 1 <= i < |r| ==> r[i] == window[i - 1]
  {
    var unshifted := [op] + window;
    if |unshifted| > limit then unshifted[..|unshifted| - 1] else unshifted
  }

  /** As written, a window below capacity never grows: an empty window drops
      every live event, where the capacity rule would keep it. */
  lemma ShortWindowDropsLiveEvents(window: seq<Operation>, op: Operation, limit: nat)
    requires |window| < limit
    ensures |Prepended(window, op)| == |window| < |PrependCapped(window, op, limit)|
    ensures Prepended([], op) == [] && PrependCapped([], op, limit) == [op]
  {
  }

  /** The age refresh that skips untimed records: every record with a creation time gets its
      age recomputed, and records without one are skipped. */
  function RefreshedKnown(window: seq<Operation>, now: Moment, fromNow: AgeFn): (r: seq<Operation>)
    ensures |r| == |window|
    ensures forall i :: 0 <= i < |window| && window[i].createdAt.Some? ==> r[i] == Aged(window[i], now, fromNow)
    ensures forall i :: 0 <= i < |window| && window[i].createdAt.None? ==> r[i] == window[i]
    decreases |window|
  {
    if window == [] then []
    else
      var rest := RefreshedKnown(window[1..], now, fromNow);
      var head := if window[0].createdAt.Some? then Aged(window[0], now, fromNow) else window[0];
      assert forall i :: 1 <= i < |window| ==> window[1..][i - 1] == window[i];
      [head] + rest
  }

  /** The two refreshes agree on a window whose records all have creation times. */
  lemma RefreshesAgreeWhenAllTimed(window: seq<Operation>, now: Moment, fromNow: AgeFn)
    requires forall i :: 0 <= i < |window| ==> window[i].createdAt.Some?
    ensures Refreshed(window, now, fromNow) == RefreshedKnown(window, now, fromNow)
  {
    RefreshAllTimed(window, now, fromNow);
  }

  /** As written, one record whose creation time never arrived freezes the age of
      every record behind it. */
  lemma UntimedRecordFreezesLaterAges(untimed: Operation, timed: Operation, now: Moment, fromNow: AgeFn)
    requires untimed.createdAt.None? && timed.createdAt.Some?
    requires timed.ago != Some(fromNow(timed.createdAt.value, now))
    ensures Refreshed([untimed, timed], now, fromNow)[1] == timed
    ensures RefreshedKnown([untimed, timed], now, fromNow)[1] != timed
  {
  }

  // ---------------------------------------------------------------------------
  // The widget's state

  /** The widget: its configuration, the window of operations and the paging
      token of the first page. Each method is one callback of the widget, with
      the data the callback receives as parameters. */
  class RecentOperations {
    const horizonUrl: string
    const account: Option<Account>
    const limit: nat
    /** The URL of the first-page request, issued on construction. */
    const requestUrl: string
    /** The relative-age text, as computed by the time library. */
    const fromNow: AgeFn
    var operations: seq<Operation>
    var pagingToken: Option<string>

    constructor (horizonUrl: string, account: Option<Account>, limit: Option<nat>, fromNow: AgeFn)
      ensures this.horizonUrl == horizonUrl && this.account == account && this.fromNow == fromNow
      ensures this.limit == Query.DefaultedLimit(limit)
      ensures requestUrl == Query.OperationsUrl(horizonUrl, account, this.limit)
      ensures operations == [] && pagingToken == None
    {
      this.horizonUrl := horizonUrl;
      this.account := account;
      this.limit := Query.DefaultedLimit(limit);
      this.fromNow := fromNow;
      requestUrl := Query.OperationsUrl(horizonUrl, account, Query.DefaultedLimit(limit));
      operations := [];
      pagingToken := None;
    }

    /** A live event arrived at `now`. */
    method OnNewOperation(op: Operation, now: Moment)
      modifies this`operations
      ensures operations == LiveStep(account, old(operations), op, now)
      ensures !Relevant(account, op) ==> operations == old(operations)
      ensures Relevant(account, op) ==> operations == Prepended(old(operations), Stamped(op, now))
    {
      if HasAccount(account) {
        if account.value != op.sourceAccount &&
           Destination(op.kind) != Some(account.value) &&
           Trustee(op.kind) != Some(account.value) {
          return;
        }
      }
      var window := operations;
      var stamped := op.(createdAt := Some(now));
      window := [stamped] + window;
      window := window[..|window| - 1];
      operations := window;
    }

    /** The first page arrived: its records are appended in order, and the
      paging token is taken from them while it is unset. */
    method LoadPage(records: seq<Operation>)
      modifies this`operations, this`pagingToken
      ensures operations == old(operations) + records
      ensures pagingToken == NextPagingToken(old(pagingToken), records)
    {
      var i := 0;
      while i < |records|
        invariant 0 <= i <= |records|
        invariant operations == old(operations) + records[..i]
        invariant NextPagingToken(pagingToken, records[i..]) == NextPagingToken(old(pagingToken), records)
      {
        var op := records[i];
        assert records[i..][1..] == records[i + 1..];
        if !Truthy(pagingToken) {
          pagingToken := Some(op.pagingToken);
        }
        operations := operations + [op];
        assert records[..i + 1] == records[..i] + [op];
        i := i + 1;
      }
      assert records[..i] == records;
    }

    /** The creation time of record `id` arrived; its age is computed at `now`. */
    method ApplyTransactionTime(id: string, createdAt: Moment, now: Moment)
      modifies this`operations
      ensures operations == Enriched(old(operations), id, createdAt, fromNow(createdAt, now))
    {
      var window := operations;
      var i := 0;
      while i < |window|
        invariant 0 <= i <= |window|
        invariant window == old(operations)
        invariant forall j :: 0 <= j < i ==> window[j].id != id
      {
        if window[i].id == id {
          EnrichFirstMatch(window, id, createdAt, fromNow(createdAt, now), i);
          window := window[i := window[i].(createdAt := Some(createdAt), ago := Some(fromNow(createdAt, now)))];
          break;
        }
        i := i + 1;
      }
      if i == |window| {
        EnrichAbsentIsNoOp(window, id, createdAt, fromNow(createdAt, now));
      }
      operations := window;
    }

    /** The periodic age refresh at `now`. `completed` is false when it stopped at
      a record without a creation time. */
    method UpdateAgo(now: Moment) returns (completed: bool)
      modifies this`operations
      ensures completed <==> FirstUntimed(old(operations)) == |old(operations)|
      ensures operations == Refreshed(old(operations), now, fromNow)
    {
      ghost var before := operations;
      var i := 0;
      while i < |operations|
        invariant 0 <= i <= |operations| == |before|
        invariant i <= FirstUntimed(before)
        invariant operations[i..] == before[i..]
        invariant operations[..i] + Refreshed(before[i..], now, fromNow) == Refreshed(before, now, fromNow)
      {
        if operations[i].createdAt.None? {
          assert operations[..i] + operations[i..] == operations;
          return false;
        }
        assert before[i..][1..] == before[i + 1..];
        ghost var aged := Aged(operations[i], now, fromNow);
        operations := operations[i := operations[i].(ago := Some(fromNow(operations[i].createdAt.value, now)))];
        assert operations[..i + 1] == operations[..i] + [aged];
        i := i + 1;
      }
      assert operations[..i] == operations;
      return true;
    }
  }
}
