/** How fetched pages fold into the feed, stated on snapshots: append
    (numbering new display keys), merge by content key (uri, indexedAt), and
    the update loop that merges page after page. */
module Reconcile {
  import opened FeedTypes
  import opened FeedItems
  import opened ReactKeys

  /** Requests of the update loop never ask for more than this many items. */
  const PageCap: nat := 100
  const LoadErrorPrefix: string := "Failed to load feed: "
  const UpdateErrorPrefix: string := "Failed to update feed: "
  /** Stands for the message of the error raised when the update loop reads
      its cursor past the end of the feed; the actual text depends on the
      JavaScript engine. */
  const IndexError: string := "TypeError: Cannot read properties of undefined (reading 'indexedAt')"

  function Min(a: int, b: int): int { if a <= b then a else b }

  predicate StartsWith(s: string, prefix: string) {
    |prefix| <= |s| && s[..|prefix|] == prefix
  }

  // ---------------------------------------------------------------------------
  // Display keys

  /** Every entry's display key is `item-<its position>`. */
  predicate KeysNumbered(vs: seq<ItemView>) {
    forall i :: 0 <= i < |vs| ==> vs[i].reactKey == ReactKey(i)
  }

  lemma NumberedKeysDistinct(vs: seq<ItemView>)
    requires KeysNumbered(vs)
    ensures forall i, j :: 0 <= i < |vs| && 0 <= j < |vs| && i != j ==> vs[i].reactKey != vs[j].reactKey
  {
    forall i, j | 0 <= i < |vs| && 0 <= j < |vs| && i != j
      ensures vs[i].reactKey != vs[j].reactKey
    {
      ReactKeyInjective(i, j);
    }
  }

  // ---------------------------------------------------------------------------
  // Append

  /** The entries `_append` creates for a page when the key counter starts at n. */
  function NewViews(page: seq<FeedItem>, n: nat): (r: seq<ItemView>)
    ensures |r| == |page|
    ensures forall i :: 0 <= i < |page| ==> r[i].reactKey == ReactKey(n + i) && r[i].data == page[i].data
    ensures forall i :: 0 <= i < |page| ==>
              r[i].hasLiked == (page[i].myState.Some? && page[i].myState.value.hasLiked) &&
              r[i].hasReposted == (page[i].myState.Some? && page[i].myState.value.hasReposted)
  {
    seq(|page|, i requires 0 <= i < |page| => CopyInto(Blank(ReactKey(n + i)), page[i]))
  }

  /** A replaced feed is exactly the page, numbered from `item-0`. */
  lemma ReplaceNumbers(page: seq<FeedItem>)
    ensures KeysNumbered(NewViews(page, 0))
    ensures forall i :: 0 <= i < |page| ==> NewViews(page, 0)[i].data == page[i].data
  {
  }

  lemma NewViewsExtend(page: seq<FeedItem>, n: nat, i: nat)
    requires i < |page|
    ensures NewViews(page[..i + 1], n) == NewViews(page[..i], n) + [CopyInto(Blank(ReactKey(n + i)), page[i])]
  {
  }

  /** Appending keeps every existing entry in place and keeps the numbering. */
  lemma AppendKeepsNumbering(vs: seq<ItemView>, page: seq<FeedItem>)
    requires KeysNumbered(vs)
    ensures KeysNumbered(vs + NewViews(page, |vs|))
    ensures (vs + NewViews(page, |vs|))[..|vs|] == vs
  {
  }

  // ---------------------------------------------------------------------------
  // Merge by content key

  /** The content key of an entry equals that of a fetched item. */
  predicate Matches(x: ItemView, v: FeedItem) {
    x.data.uri == v.data.uri && x.data.indexedAt == v.data.indexedAt
  }

  /** Array `find`: the first entry whose content key is v's. */
  function FirstMatch(vs: seq<ItemView>, v: FeedItem): (r: Option<nat>)
    ensures r.Some? ==> r.value < |vs|
  {
    if vs == [] then None
    else if Matches(vs[0], v) then Some(0)
    else match FirstMatch(vs[1..], v)
      case None => None
      case Some(k) => Some(k + 1)
  }

  /** `find` returns the position of the first entry with v's content key,
      or nothing when no entry has it. */
  lemma {:induction false} FirstMatchSpec(vs: seq<ItemView>, v: FeedItem)
    ensures var r := FirstMatch(vs, v);
      && (r.Some? ==> r.value < |vs| && Matches(vs[r.value], v))
      && (r.Some? ==> forall j :: 0 <= j < r.value ==> !Matches(vs[j], v))
      && (r.None? ==> forall j :: 0 <= j < |vs| ==> !Matches(vs[j], v))
  {
    if vs != [] && !Matches(vs[0], v) {
      FirstMatchSpec(vs[1..], v);
    }
  }

  /** Same length, and position by position the same display key and content key. */
  predicate SameKeys(a: seq<ItemView>, b: seq<ItemView>) {
    |a| == |b| &&
    forall k :: 0 <= k < |a| ==>
      a[k].reactKey == b[k].reactKey && a[k].data.uri == b[k].data.uri && a[k].data.indexedAt == b[k].data.indexedAt
  }

  lemma FirstMatchOnSameKeys(a: seq<ItemView>, b: seq<ItemView>, v: FeedItem)
    requires SameKeys(a, b)
    ensures FirstMatch(a, v) == FirstMatch(b, v)
  {
    FirstMatchSpec(a, v);
    FirstMatchSpec(b, v);
  }

  /** One step of `_updateAll`: the first entry with v's content key takes v's data. */
  function MergeOne(vs: seq<ItemView>, v: FeedItem): (r: seq<ItemView>)
    ensures |r| == |vs|
  {
    match FirstMatch(vs, v)
    case None => vs
    case Some(k) => vs[k := CopyInto(vs[k], v)]
  }

  /** One merge step keeps every key, changes at most the first entry with
      v's content key, and gives that entry v's data. */
  lemma MergeOneSpec(vs: seq<ItemView>, v: FeedItem)
    ensures var r := MergeOne(vs, v);
      && SameKeys(vs, r)
      && (forall k :: 0 <= k < |vs| && r[k] != vs[k] ==> FirstMatch(vs, v) == Some(k))
      && (FirstMatch(vs, v).Some? ==> r[FirstMatch(vs, v).value].data == v.data)
  {
    FirstMatchSpec(vs, v);
  }

  /** `_updateAll`: merge the fetched items in page order. */
  function Merge(vs: seq<ItemView>, page: seq<FeedItem>): (r: seq<ItemView>)
    ensures SameKeys(vs, r)
    decreases |page|
  {
    if page == [] then vs
    else
      var front := Merge(vs, page[..|page| - 1]);
      MergeOneSpec(front, page[|page| - 1]);
      MergeOne(front, page[|page| - 1])
  }

  /** Merging preserves the display-key numbering. */
  lemma MergeKeepsNumbering(vs: seq<ItemView>, page: seq<FeedItem>)
    requires KeysNumbered(vs)
    ensures KeysNumbered(Merge(vs, page))
  {
  }

  /** An entry changes only if it is the first entry with the content key of
      some fetched item; unmatched fetched items are ignored. */
  lemma {:induction false} MergeChangesOnlyFirstMatches(vs: seq<ItemView>, page: seq<FeedItem>, k: nat)
    requires k < |vs| && Merge(vs, page)[k] != vs[k]
    ensures exists j :: 0 <= j < |page| && FirstMatch(vs, page[j]) == Some(k)
    decreases |page|
  {
    var n := |page|;
    var front := page[..n - 1];
    var m := Merge(vs, front);
    if m[k] != vs[k] {
      MergeChangesOnlyFirstMatches(vs, front, k);
      var j :| 0 <= j < |front| && FirstMatch(vs, front[j]) == Some(k);
      assert page[j] == front[j];
    } else {
      MergeOneSpec(m, page[n - 1]);
      FirstMatchOnSameKeys(vs, m, page[n - 1]);
    }
  }

  /** An entry whose content key no fetched item carries is left as it was;
      in particular an item with the same uri but another indexedAt never
      overwrites it. */
  lemma MergeLeavesUnmatched(vs: seq<ItemView>, page: seq<FeedItem>, k: nat)
    requires k < |vs|
    requires forall j :: 0 <= j < |page| ==> !Matches(vs[k], page[j])
    ensures Merge(vs, page)[k] == vs[k]
  {
    if Merge(vs, page)[k] != vs[k] {
      MergeChangesOnlyFirstMatches(vs, page, k);
    }
  }

  /** The first entry with a given content key ends up with the data of the
      last fetched item carrying that key. */
  lemma {:induction false} MergeLastWins(vs: seq<ItemView>, page: seq<FeedItem>, j: nat, k: nat)
    requires j < |page| && k < |vs| && FirstMatch(vs, page[j]) == Some(k)
    requires forall i :: j < i < |page| ==> !Matches(vs[k], page[i])
    ensures Merge(vs, page)[k].data == page[j].data
    decreases |page|
  {
    var n := |page|;
    var front := page[..n - 1];
    var m := Merge(vs, front);
    MergeOneSpec(m, page[n - 1]);
    FirstMatchOnSameKeys(vs, m, page[n - 1]);
    if j < n - 1 {
      assert front[j] == page[j];
      MergeLastWins(vs, front, j, k);
      assert !Matches(vs[k], page[n - 1]);
    }
  }

  lemma {:induction false} MergeConcat(vs: seq<ItemView>, a: seq<FeedItem>, b: seq<FeedItem>)
    ensures Merge(vs, a + b) == Merge(Merge(vs, a), b)
    decreases |b|
  {
    if b != [] {
      var n := |b|;
      assert (a + b)[..|a + b| - 1] == a + b[..n - 1];
      assert (a + b)[|a + b| - 1] == b[n - 1];
      MergeConcat(vs, a, b[..n - 1]);
    } else {
      assert a + b == a;
    }
  }

  // ---------------------------------------------------------------------------
  // The update loop

  /** The request each round of `_update` sends: only the cursor and a limit;
      the feed's stored parameters are not sent. */
  function UpdateParams(cursor: Option<string>, numToFetch: nat): (p: Params)
    ensures p.before == cursor && p.filters == map[]
    ensures p.limit.Some? && 0 <= p.limit.value <= PageCap
    ensures p.limit.value == numToFetch || p.limit.value == PageCap
    ensures p.limit.value <= numToFetch
  {
    Params(map[], Some(Min(numToFetch, PageCap)), cursor)
  }

  /** The outcome of an update: the entries, the requests sent in order, the
      pages received in order, and the error message ("" on success). */
  datatype UpdateRun = UpdateRun(views: seq<ItemView>, requests: seq<Params>, pages: seq<seq<FeedItem>>, error: string)

  function Flatten(pages: seq<seq<FeedItem>>): seq<FeedItem> {
    if pages == [] then [] else pages[0] + Flatten(pages[1..])
  }

  /** What one pass through the body of the do-while loop leads to: stop
      with the entries, the page received (if any) and the error, or go
      round again with the merged entries, the new countdown and cursor. */
  datatype Round =
    | Stop(views: seq<ItemView>, received: seq<seq<FeedItem>>, error: string)
    | Again(merged: seq<ItemView>, page: seq<FeedItem>, left: nat, next: Option<string>)

  /** One pass through the loop body of `_update`, given the answer to its
      request: an empty page breaks out; otherwise the page is merged, the
      countdown drops by its length, and the next cursor is read from the
      feed at position |page| - 1, which raises an error when the page is
      longer than the feed. */
  function UpdateRound(views: seq<ItemView>, answer: ViewResult, numToFetch: nat): (s: Round)
    ensures s.Again? ==> answer == Success(s.page) && 0 < s.left < numToFetch && s.left == numToFetch - |s.page|
    ensures s.Stop? ==> |s.received| <= 1
    ensures s.Stop? && |s.received| == 1 ==> answer == Success(s.received[0])
    ensures s.Stop? && |s.received| == 0 ==> answer.Failure? && s.error == UpdateErrorPrefix + answer.error
    ensures s.Stop? && |s.received| == 1 ==>
              s.error == if |s.received[0]| <= |views| then "" else UpdateErrorPrefix + IndexError
  {
    match answer
    case Failure(e) => Stop(views, [], UpdateErrorPrefix + e)
    case Success(page) =>
      if |page| == 0 then Stop(views, [page], "")
      else
        var merged := Merge(views, page);
        if |page| - 1 >= |merged| then Stop(merged, [page], UpdateErrorPrefix + IndexError)
        else if numToFetch - |page| > 0 then
          Again(merged, page, numToFetch - |page|, Some(merged[|page| - 1].data.indexedAt))
        else Stop(merged, [page], "")
  }

  /** The do-while loop of `_update`, from a round that is about to send the
      request numbered n with the given countdown and cursor. */
  function UpdateLoop(views: seq<ItemView>, answer: (nat, Params) -> ViewResult, n: nat,
                      numToFetch: nat, cursor: Option<string>): (r: UpdateRun)
    ensures |r.requests| >= 1 && r.requests[0] == UpdateParams(cursor, numToFetch)
    decreases numToFetch
  {
    var req := UpdateParams(cursor, numToFetch);
    match UpdateRound(views, answer(n, req), numToFetch)
    case Stop(vs, received, error) => UpdateRun(vs, [req], received, error)
    case Again(merged, page, left, next) =>
      var rest := UpdateLoop(merged, answer, n + 1, left, next);
      UpdateRun(rest.views, [req] + rest.requests, [page] + rest.pages, rest.error)
  }

  /** One round of the loop, then the rest of it. */
  lemma UpdateLoopStep(views: seq<ItemView>, answer: (nat, Params) -> ViewResult, n: nat,
                       numToFetch: nat, cursor: Option<string>)
    ensures var req := UpdateParams(cursor, numToFetch);
      var s := UpdateRound(views, answer(n, req), numToFetch);
      var r := UpdateLoop(views, answer, n, numToFetch, cursor);
      && (s.Stop? ==> r == UpdateRun(s.views, [req], s.received, s.error))
      && (s.Again? ==>
            var rest := UpdateLoop(s.merged, answer, n + 1, s.left, s.next);
            r == UpdateRun(rest.views, [req] + rest.requests, [s.page] + rest.pages, rest.error))
  {
  }

  lemma SameKeysNumbered(a: seq<ItemView>, b: seq<ItemView>)
    requires SameKeys(a, b) && KeysNumbered(a)
    ensures KeysNumbered(b)
  {
  }

  /** A round keeps every key, and its entries are the merge of the page it received. */
  lemma UpdateRoundMerges(views: seq<ItemView>, answer: ViewResult, numToFetch: nat)
    ensures var s := UpdateRound(views, answer, numToFetch);
      && (s.Stop? ==> s.views == Merge(views, Flatten(s.received)) && SameKeys(views, s.views))
      && (s.Again? ==> s.merged == Merge(views, s.page) && SameKeys(views, s.merged))
  {
    var s := UpdateRound(views, answer, numToFetch);
    if s.Stop? && s.received != [] {
      assert Flatten(s.received) == s.received[0] + Flatten([]);
      assert s.received[0] + [] == s.received[0];
    }
  }

  /** The loop keeps the length, the order, the display keys and the content keys. */
  lemma {:induction false} UpdateKeepsKeys(views: seq<ItemView>, answer: (nat, Params) -> ViewResult, n: nat,
                                           numToFetch: nat, cursor: Option<string>, r: UpdateRun)
    requires r == UpdateLoop(views, answer, n, numToFetch, cursor)
    ensures SameKeys(views, r.views)
    decreases numToFetch
  {
    var req := UpdateParams(cursor, numToFetch);
    UpdateRoundMerges(views, answer(n, req), numToFetch);
    match UpdateRound(views, answer(n, req), numToFetch)
    case Stop(_, _, _) =>
    case Again(merged, page, left, next) =>
      UpdateKeepsKeys(merged, answer, n + 1, left, next, UpdateLoop(merged, answer, n + 1, left, next));
  }

  /** The loop sends at least one request (even for an empty feed), at most
      max(1, countdown) of them, the first with the initial cursor; every
      limit is min(countdown, 100) for the countdown of its round, so never
      above the initial one, and every later request carries a cursor. */
  lemma {:induction false} UpdateRequests(views: seq<ItemView>, answer: (nat, Params) -> ViewResult, n: nat,
                                          numToFetch: nat, cursor: Option<string>, r: UpdateRun)
    requires r == UpdateLoop(views, answer, n, numToFetch, cursor)
    ensures 1 <= |r.requests| <= (if numToFetch <= 1 then 1 else numToFetch)
    ensures r.requests[0] == UpdateParams(cursor, numToFetch)
    ensures forall i :: 0 <= i < |r.requests| ==>
              r.requests[i].filters == map[] && r.requests[i].limit.Some? &&
              0 <= r.requests[i].limit.value <= Min(numToFetch, PageCap)
    ensures forall i :: 0 < i < |r.requests| ==> r.requests[i].before.Some?
    decreases numToFetch
  {
    var req := UpdateParams(cursor, numToFetch);
    match UpdateRound(views, answer(n, req), numToFetch)
    case Stop(_, _, _) =>
    case Again(merged, page, left, next) =>
      var rest := UpdateLoop(merged, answer, n + 1, left, next);
      UpdateRequests(merged, answer, n + 1, left, next, rest);
      assert r.requests == [req] + rest.requests;
  }

  /** One page per request answered with a page, in order: the failed
      request, if any, is the last one and has none. */
  lemma {:induction false} UpdatePages(views: seq<ItemView>, answer: (nat, Params) -> ViewResult, n: nat,
                                       numToFetch: nat, cursor: Option<string>, r: UpdateRun)
    requires r == UpdateLoop(views, answer, n, numToFetch, cursor)
    ensures |r.requests| - 1 <= |r.pages| <= |r.requests|
    ensures |r.pages| < |r.requests| ==> r.error != "" && StartsWith(r.error, UpdateErrorPrefix)
    decreases numToFetch
  {
    var req := UpdateParams(cursor, numToFetch);
    match UpdateRound(views, answer(n, req), numToFetch)
    case Stop(_, received, error) =>
      if received == [] {
        var e := answer(n, req).error;
        assert error == UpdateErrorPrefix + e;
        assert (UpdateErrorPrefix + e)[..|UpdateErrorPrefix|] == UpdateErrorPrefix;
      }
    case Again(merged, page, left, next) =>
      var rest := UpdateLoop(merged, answer, n + 1, left, next);
      UpdatePages(merged, answer, n + 1, left, next, rest);
      assert r.requests == [req] + rest.requests && r.pages == [page] + rest.pages;
  }

  /** The pages are, in order, the answers to the requests numbered n, n + 1, ... */
  ghost predicate Answered(answer: (nat, Params) -> ViewResult, n: nat, requests: seq<Params>, pages: seq<seq<FeedItem>>)
    decreases |pages|
  {
    |pages| <= |requests| &&
    (pages != [] ==> answer(n, requests[0]) == Success(pages[0]) && Answered(answer, n + 1, requests[1..], pages[1..]))
  }

  /** Every page recorded is the answer to the request sent in its round. */
  lemma {:induction false} UpdateAnswered(views: seq<ItemView>, answer: (nat, Params) -> ViewResult, n: nat,
                                          numToFetch: nat, cursor: Option<string>, r: UpdateRun)
    requires r == UpdateLoop(views, answer, n, numToFetch, cursor)
    ensures Answered(answer, n, r.requests, r.pages)
    decreases numToFetch
  {
    var req := UpdateParams(cursor, numToFetch);
    match UpdateRound(views, answer(n, req), numToFetch)
    case Stop(_, received, _) =>
      if received != [] {
        assert r.requests[1..] == [] && r.pages[1..] == [];
      }
    case Again(merged, page, left, next) =>
      var rest := UpdateLoop(merged, answer, n + 1, left, next);
      UpdateAnswered(merged, answer, n + 1, left, next, rest);
      assert r.requests[1..] == rest.requests && r.pages[1..] == rest.pages;
  }

  /** Whatever happens, the entries are those of merging every page
      received, in order; a failure keeps the merges already done. */
  lemma {:induction false} UpdateIsMerge(views: seq<ItemView>, answer: (nat, Params) -> ViewResult, n: nat,
                                         numToFetch: nat, cursor: Option<string>, r: UpdateRun)
    requires r == UpdateLoop(views, answer, n, numToFetch, cursor)
    ensures r.views == Merge(views, Flatten(r.pages))
    decreases numToFetch
  {
    var req := UpdateParams(cursor, numToFetch);
    UpdateRoundMerges(views, answer(n, req), numToFetch);
    match UpdateRound(views, answer(n, req), numToFetch)
    case Stop(_, _, _) =>
    case Again(merged, page, left, next) =>
      var rest := UpdateLoop(merged, answer, n + 1, left, next);
      UpdateIsMerge(merged, answer, n + 1, left, next, rest);
      assert r.pages == [page] + rest.pages;
      assert Flatten(r.pages) == page + Flatten(rest.pages);
      MergeConcat(views, page, Flatten(rest.pages));
  }

  /** The error of an update is empty or starts with "Failed to update feed: ". */
  lemma {:induction false} UpdateErrorPrefixed(views: seq<ItemView>, answer: (nat, Params) -> ViewResult, n: nat,
                                               numToFetch: nat, cursor: Option<string>, r: UpdateRun)
    requires r == UpdateLoop(views, answer, n, numToFetch, cursor)
    ensures r.error == "" || StartsWith(r.error, UpdateErrorPrefix)
    decreases numToFetch
  {
    var req := UpdateParams(cursor, numToFetch);
    match UpdateRound(views, answer(n, req), numToFetch)
    case Stop(_, _, error) =>
      if error != "" {
        var reason := if answer(n, req).Failure? then answer(n, req).error else IndexError;
        assert error == UpdateErrorPrefix + reason;
        assert (UpdateErrorPrefix + reason)[..|UpdateErrorPrefix|] == UpdateErrorPrefix;
      }
    case Again(merged, page, left, next) =>
      UpdateErrorPrefixed(merged, answer, n + 1, left, next, UpdateLoop(merged, answer, n + 1, left, next));
  }

  /** An update that received a page in every round ends without an error,
      unless a page overran the list and the cursor read failed. */
  lemma {:induction false} UpdateErrorOnlyOnFailure(views: seq<ItemView>, answer: (nat, Params) -> ViewResult, n: nat,
                                                    numToFetch: nat, cursor: Option<string>, r: UpdateRun)
    requires r == UpdateLoop(views, answer, n, numToFetch, cursor)
    ensures |r.pages| == |r.requests| && r.error != "" ==> r.error == UpdateErrorPrefix + IndexError
    decreases numToFetch
  {
    var req := UpdateParams(cursor, numToFetch);
    match UpdateRound(views, answer(n, req), numToFetch)
    case Stop(_, _, _) =>
    case Again(merged, page, left, next) =>
      var rest := UpdateLoop(merged, answer, n + 1, left, next);
      UpdateErrorOnlyOnFailure(merged, answer, n + 1, left, next, rest);
      assert r.requests == [req] + rest.requests && r.pages == [page] + rest.pages;
  }

  /** An empty first page ends the update at once: nothing changes and no error is set. */
  lemma UpdateStopsOnEmptyPage(views: seq<ItemView>, answer: (nat, Params) -> ViewResult, n: nat,
                               numToFetch: nat, cursor: Option<string>)
    requires answer(n, UpdateParams(cursor, numToFetch)) == Success([])
    ensures UpdateLoop(views, answer, n, numToFetch, cursor)
         == UpdateRun(views, [UpdateParams(cursor, numToFetch)], [[]], "")
  {
  }

  /** The cursor of the second request is read from the feed at position
      |first page| - 1, not from the page; a first page longer than the feed
      ends the update with an error after merging it. */
  lemma UpdateCursorFromFeed(views: seq<ItemView>, answer: (nat, Params) -> ViewResult, n: nat,
                             numToFetch: nat, cursor: Option<string>, page: seq<FeedItem>, r: UpdateRun)
    requires answer(n, UpdateParams(cursor, numToFetch)) == Success(page) && |page| > 0
    requires r == UpdateLoop(views, answer, n, numToFetch, cursor)
    ensures |page| > |views| ==> r.views == Merge(views, page) && r.error == UpdateErrorPrefix + IndexError
    ensures |page| <= |views| && |page| < numToFetch ==>
              |r.requests| >= 2 && r.requests[1].before == Some(views[|page| - 1].data.indexedAt)
  {
    var req := UpdateParams(cursor, numToFetch);
    UpdateRoundMerges(views, answer(n, req), numToFetch);
    match UpdateRound(views, answer(n, req), numToFetch)
    case Stop(_, _, _) =>
    case Again(merged, _, left, next) =>
      var rest := UpdateLoop(merged, answer, n + 1, left, next);
      UpdateRequests(merged, answer, n + 1, left, next, rest);
      assert r.requests == [req] + rest.requests;
  }

  /** An update keeps the length, the order and every display key, and an
      entry it changes is the first one with the content key of some item
      it received. */
  lemma UpdateChangesOnlyMatched(views: seq<ItemView>, answer: (nat, Params) -> ViewResult, n: nat,
                                 numToFetch: nat, cursor: Option<string>, r: UpdateRun, k: nat)
    requires r == UpdateLoop(views, answer, n, numToFetch, cursor)
    requires k < |views|
    ensures SameKeys(views, r.views)
    ensures r.views[k] != views[k] ==>
              exists j :: 0 <= j < |Flatten(r.pages)| && FirstMatch(views, Flatten(r.pages)[j]) == Some(k)
  {
    UpdateKeepsKeys(views, answer, n, numToFetch, cursor, r);
    UpdateIsMerge(views, answer, n, numToFetch, cursor, r);
    if r.views[k] != views[k] {
      MergeChangesOnlyFirstMatches(views, Flatten(r.pages), k);
    }
  }
}
