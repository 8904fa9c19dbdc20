# Feed view model

This project is a Dafny model of the feed controller of the Bluesky social
app (`src/state/models/feed-view.ts`). It covers two classes:

- **`FeedViewModel`** holds an ordered list of feed entries and a small
  loading state machine (`isLoading`, `isRefreshing`, `hasLoaded`,
  `error`). It has three loaders:
  - an initial load, which replaces the list with one fetched page;
  - load-more, which appends the page older than the last entry;
  - an in-place update, which re-fetches the first N entries page by page
    and copies fresh data into the entries with the same content key.
    The content key is the pair (uri, indexedAt).
- **`FeedViewItemModel`** is one entry. Its `copy` overwrites the post
  data. Its like and repost toggles change the flag and counter only
  after the remote write succeeds.

`FeedView` and `FeedItems` hold the source's two classes. The other
modules are supporting definitions: wire types, a stand-in for the remote
service, and specification modules that give the meaning of
`FeedViewModel`'s private methods:

- `FeedTypes` holds the wire types: post data, a feed item as the server
  sends it, and query parameters.
- `Gateway` models the remote service. A `class Api` answers each query
  and each write through functions of the request number and the request,
  and keeps a log `sent` of every request in order. This lets contracts
  state which requests the feed sends (limit, cursor) and how it reacts to
  any answer, including failures.
- `ReactKeys` builds the display keys `item-<n>`, using the decimal
  rendering of a template literal. It proves that distinct numbers give
  distinct keys.
- `FeedItems` has the snapshot `ItemView` of an entry. It defines the
  meaning of `copy` (`CopyInto`) and of a successful toggle (`FlipLike`,
  `FlipRepost`). `class Item` mirrors the entry's fields, and its
  methods are proved against those functions.
- `Reconcile` gives the meaning of the list operations on snapshots:
  - appending a page with numbered keys (`NewViews`);
  - array `find` (`FirstMatch`);
  - merging a page by content key (`Merge`);
  - the update loop (`UpdateRound`, `UpdateLoop`).

  The lemmas about the update are stated on this pure level.
- `FeedView` has `class Feed`, which holds its entries as a `seq<Item>` of
  objects that are updated in place. The list operations and loaders are
  proved against the `Reconcile` functions. The list invariant `Valid()` says two things:
  - the entries are distinct objects;
  - entry `i` has display key `item-<i>`, so display keys are unique
    (`Reconcile.NumberedKeysDistinct`).

  The constructor, `ReplaceAll`, `InitialLoad`, `LoadMore` and `Update`
  keep `Valid()`. The private helpers `Append`, `AppendAll`, `UpdateAll`,
  `UpdatePass` and `UpdatePasses` keep only the first half, that the
  entries are distinct objects. The numbering depends on the counter their
  caller passes in.

The update loop is modelled as written:

- Each round sends only `before` and `limit`. The feed's stored query
  parameters are not sent.
- The limit is `min(countdown, 100)`.
- An empty page stops the loop.
- The next cursor is read from the *feed* at position `|page| - 1`, not
  from the page. A page longer than the feed makes that read fail, and
  the update ends with an error whose text starts with
  "Failed to update feed: " (`Reconcile.UpdateCursorFromFeed`).

As a result, when every page has the same length, every request after
the first carries the same cursor. The model keeps this behaviour as the
code has it.

Where the documented behaviour and the code differ, the model follows the
code:

- The code does not keep content keys unique within the list, so no such
  invariant is claimed. `Merge` copies into the first entry with a
  matching key.
- Like and repost counters are not clamped at zero. A decrement from 0
  gives -1, so no non-negativity is claimed.
- The update cursor comes from the feed at position `|page| - 1`, not
  from the last item of the fetched page.

## Model

| member | source | states |
|---|---|---|
| FeedItems.Blank | src/state/models/feed-view.ts:17-32 | a fresh entry has the given display key, empty uri and indexedAt, no resharer and no embed, zero counters, and neither flag set |
| FeedItems.CopyInto | src/state/models/feed-view.ts:44-58 | `copy` keeps the display key, takes all post data from the fetched item, and takes the viewer flags from it only when it carries them; otherwise the old flags stay |
| FeedItems.CopyIdempotent | src/state/models/feed-view.ts:44-58 | copying the same fetched item twice has the effect of copying it once |
| FeedItems.CopyOverwrites | src/state/models/feed-view.ts:44-58 | a later copy replaces all data of an earlier one; the earlier flags survive only if the later item carries none |
| FeedItems.Item.constructor | src/state/models/feed-view.ts:34-42 | a new entry is the default entry with the given display key, then copied from the fetched item |
| FeedItems.Item.Copy | src/state/models/feed-view.ts:44-58 | the entry's new state is `CopyInto` of its old state |
| FeedItems.LikeWrite | src/state/models/feed-view.ts:60-74 | the like toggle sends unlike when liked and like otherwise, as actor `alice.com`, for the entry's uri |
| FeedItems.RepostWrite | src/state/models/feed-view.ts:76-90 | the repost toggle sends unrepost when reposted and repost otherwise, as `alice.com`, for the entry's uri |
| FeedItems.FlipLike | src/state/models/feed-view.ts:60-74 | a successful like toggle negates the flag, moves the like counter by one in the same direction, and changes nothing else |
| FeedItems.FlipRepost | src/state/models/feed-view.ts:76-90 | a successful repost toggle negates the flag, moves the repost counter by one, and changes nothing else |
| FeedItems.FlipsAreInvolutions | src/state/models/feed-view.ts:60-90 | two successful toggles in a row restore the entry |
| FeedItems.Item.ToggleLike | src/state/models/feed-view.ts:60-74 | exactly one write, `LikeWrite` of the old state, is logged; the entry becomes `FlipLike` of its old state if the write succeeds and is unchanged if it fails |
| FeedItems.Item.ToggleRepost | src/state/models/feed-view.ts:76-90 | exactly one write, `RepostWrite` of the old state, is logged; the entry flips only if the write succeeds |
| ReactKeys.NatToString | src/state/models/feed-view.ts:296 | the rendering of a counter is a non-empty string of decimal digits, one digit exactly for values below 10, ending with the last digit of the value |
| ReactKeys.ReactKey | src/state/models/feed-view.ts:296 | a display key is `item-` followed by the decimal rendering of the counter |
| ReactKeys.NatToStringValue | src/state/models/feed-view.ts:296 | the rendering of a counter reads back as the counter, and has no leading zero unless the counter is 0 |
| ReactKeys.NatToStringInjective | src/state/models/feed-view.ts:296 | distinct counters render to distinct strings |
| ReactKeys.ReactKeyInjective | src/state/models/feed-view.ts:294-297 | two display keys are equal if and only if their counters are |
| Reconcile.NumberedKeysDistinct | src/state/models/feed-view.ts:287-297 | in a list numbered `item-0`, `item-1`, ..., no two entries share a display key |
| Reconcile.NewViews | src/state/models/feed-view.ts:287-297 | appending a page with the counter at n creates one entry per fetched item, in page order, with key `item-<n+i>`, the item's data, and its flags (false when it carries none) |
| Reconcile.ReplaceNumbers | src/state/models/feed-view.ts:282-285 | a replaced list is numbered from `item-0` and holds the page's data in page order |
| Reconcile.AppendKeepsNumbering | src/state/models/feed-view.ts:287-292 | appending keeps every existing entry in place and keeps the numbering |
| Reconcile.FirstMatch | src/state/models/feed-view.ts:301-306 | a found position lies inside the list |
| Reconcile.FirstMatchSpec | src/state/models/feed-view.ts:301-306 | `find` returns the first position whose uri and indexedAt both equal the fetched item's, and nothing when no entry has that content key |
| Reconcile.FirstMatchOnSameKeys | src/state/models/feed-view.ts:301-306 | `find` depends only on content keys, so merging does not change where later items land |
| Reconcile.MergeOne | src/state/models/feed-view.ts:300-310 | one pass of the `_updateAll` loop body (find, then copy into the entry found) keeps the length of the list |
| Reconcile.MergeOneSpec | src/state/models/feed-view.ts:300-310 | one merge step keeps every key, changes at most the first matching entry, and gives it the item's data |
| Reconcile.Merge | src/state/models/feed-view.ts:299-311 | merging a page keeps the length, order, display keys and content keys of the list |
| Reconcile.MergeKeepsNumbering | src/state/models/feed-view.ts:299-311 | merging keeps the `item-<position>` numbering |
| Reconcile.MergeChangesOnlyFirstMatches | src/state/models/feed-view.ts:299-311 | an entry that changes is the first match of some fetched item; unmatched items are ignored, so the merge never appends |
| Reconcile.MergeLeavesUnmatched | src/state/models/feed-view.ts:301-309 | an entry whose content key no fetched item has is unchanged, even when an item has the same uri with another indexedAt |
| Reconcile.MergeLastWins | src/state/models/feed-view.ts:299-311 | the first entry with a content key ends with the data of the last fetched item that has that key |
| Reconcile.MergeConcat | src/state/models/feed-view.ts:299-311 | merging two pages one after the other equals merging their concatenation |
| Reconcile.UpdateParams | src/state/models/feed-view.ts:259-266 | an update request carries only the cursor and a limit of min(countdown, 100); it never exceeds either, and it carries none of the stored filters |
| Reconcile.UpdateRound | src/state/models/feed-view.ts:259-275 | one pass either goes on, after a non-empty page, with the countdown reduced by the page length and still positive, or stops; a stop without a page is a failed query with the prefixed error; a stop after a page has no error unless the page is longer than the list, which gives the prefixed index error |
| Reconcile.UpdateLoop | src/state/models/feed-view.ts:257-279 | the do-while loop of `_update`, by rounds: it always sends at least one request, and the first is `UpdateParams` of the starting cursor and countdown; the update lemmas below and `FeedView.Feed.Update` are stated in terms of it |
| Reconcile.UpdateRoundMerges | src/state/models/feed-view.ts:267-272 | the entries after one pass are the merge of the page it received, with all keys kept |
| Reconcile.UpdateKeepsKeys | src/state/models/feed-view.ts:254-280 | an update keeps the length, order, display keys and content keys of the list |
| Reconcile.UpdateRequests | src/state/models/feed-view.ts:257-275 | the loop sends at least one request, even for an empty list, and at most max(1, N) for a list of length N; the first has no cursor; every limit is at most min(N, 100) with no filters; every later request has a cursor |
| Reconcile.UpdatePages | src/state/models/feed-view.ts:259-279 | each request yields one page except a failed last one, which leaves the error "Failed to update feed: ..." |
| Reconcile.UpdateAnswered | src/state/models/feed-view.ts:259-270 | each recorded page is the service's answer to the request sent in its round |
| Reconcile.UpdateIsMerge | src/state/models/feed-view.ts:254-280 | the final list is the merge of all pages received, in order, including those merged before a failure |
| Reconcile.UpdateErrorPrefixed | src/state/models/feed-view.ts:276-279 | the error after an update is empty or starts with "Failed to update feed: " |
| Reconcile.UpdateErrorOnlyOnFailure | src/state/models/feed-view.ts:259-279 | an update in which every request received a page ends with no error, except when a page overran the list and the cursor read failed |
| Reconcile.UpdateStopsOnEmptyPage | src/state/models/feed-view.ts:266-268 | an empty first page ends the update at once, with the list unchanged and no error |
| Reconcile.UpdateCursorFromFeed | src/state/models/feed-view.ts:270-273 | the second cursor is the indexedAt of the list entry at position `|page| - 1`; a first page longer than the list ends the update with the prefixed index error after merging it |
| Reconcile.UpdateChangesOnlyMatched | src/state/models/feed-view.ts:254-311 | an update keeps all keys, and an entry it changes is the first match of some item it received |
| FeedView.Feed.constructor | src/state/models/feed-view.ts:94-120 | a new feed is idle, not loaded, has no error, has an empty list and keeps the given parameters |
| FeedView.Feed.HasContent | src/state/models/feed-view.ts:122-124 | true exactly when the list has an entry |
| FeedView.Feed.HasError | src/state/models/feed-view.ts:126-128 | true exactly when the error text is non-empty |
| FeedView.Feed.IsEmpty | src/state/models/feed-view.ts:130-132 | true exactly when a load has finished and the list is empty |
| FeedView.Feed.LoadMoreCursor | src/state/models/feed-view.ts:134-139 | defined exactly when the list has an entry, and then equal to the last entry's indexedAt |
| FeedView.Feed.XLoading | src/state/models/feed-view.ts:193-197 | sets loading, sets refreshing as requested, clears the error, and leaves the list alone |
| FeedView.Feed.XIdle | src/state/models/feed-view.ts:199-204 | clears loading and refreshing, marks the feed loaded, sets the given error, and leaves the list alone |
| FeedView.Feed.Append | src/state/models/feed-view.ts:294-297 | adds one new entry object at the end: the default entry keyed `item-<keyId>`, copied from the item; the existing objects keep their positions and stay distinct |
| FeedView.Feed.AppendAll | src/state/models/feed-view.ts:287-292 | the new list is the old one followed by `NewViews(page, old length)`; the existing objects keep their positions |
| FeedView.Feed.ReplaceAll | src/state/models/feed-view.ts:282-285 | the new list is `NewViews(page, 0)`, and the invariant holds |
| FeedView.Feed.UpdateAll | src/state/models/feed-view.ts:299-311 | the list's new state is `Merge` of its old state with the page, with the same objects in the same order |
| FeedView.Feed.InitialLoad | src/state/models/feed-view.ts:221-234 | sends one query with the stored parameters; on success the list becomes the page numbered from `item-0` with no error; on failure the list is unchanged and the error is "Failed to load feed: " plus the reason; the feed ends idle and loaded |
| FeedView.Feed.LoadMore | src/state/models/feed-view.ts:236-252 | sends one query with the stored parameters and `before` set to the cursor from before the call; on success the page is appended with keys counted on from the old length, and the existing objects keep their positions; on failure the list is unchanged with the prefixed error |
| FeedView.Feed.UpdatePass | src/state/models/feed-view.ts:259-273 | one pass sends `UpdateParams(cursor, countdown)` and leaves the list, error, next countdown and cursor that `UpdateRound` gives for the service's answer |
| FeedView.Feed.UpdatePasses | src/state/models/feed-view.ts:257-279 | the loop leaves the list, request log and error of `UpdateLoop` from the current list, the next request number, a countdown of the current length and no cursor |
| FeedView.Feed.Update | src/state/models/feed-view.ts:254-280 | the update's list, log and error are those of `UpdateLoop`; the same objects stay in the same order with the same keys, the invariant holds, and the feed ends idle and loaded |

## Left out

- The public wrappers `setup`, `refresh`, `loadMore`, `update` and `_pendingWork` are left out. They only memoise an in-flight promise and wait for the other loaders. In a sequential model each call of a loader runs to completion, so those wrappers have nothing left to decide.
- Interleaving is left out: another operation cannot run during an `await`. The states seen while a loader waits, such as `isLoading` being set, are therefore not observable in the model.
- MobX observability, the DEBUG delays and `console.log` are left out. They do not change the state.
- The network calls are not modelled. The remote view query and the like, unlike, repost and unrepost writes are not part of this model; their answers are given by `Gateway.Api`'s answer functions.
- The contents of the payload record, author and embed are kept opaque. They are copied as whole values and never inspected.
- The text of `e.toString()` is not modelled. A failed query's reason is the string the service answers with. `Reconcile.IndexError` stands for the message of the failed read past the end of the feed.
- FeedView.Feed.AppendAll: does not state that the objects it adds are newly allocated. `Append` states this for its one object, but carrying it through the loop made the proof too costly.
- FeedView.Feed.ReplaceAll: does not state that the objects of the rebuilt list are newly allocated, because `AppendAll` does not.
- FeedView.Feed.InitialLoad: does not state that, on success, the objects of the list are newly allocated, because `AppendAll` does not.
- FeedView.Feed.LoadMore: does not state that, on success, the appended objects are newly allocated, because `AppendAll` does not.
- `FeedViewItemMyStateModel` is folded into `FeedItems.Item` as two flags. It is never shared or replaced.
- A fetched item that is not a well-formed post (the source's `TODO: validate .record`) is left out; the model accepts every fetched item, as the code does.
- Counters are JavaScript numbers in the source and `int` in the model. The ±1 steps stay far from the limits of a double.
- `src/state/lib/api.ts` (the `apilib` write helpers) and `src/state/models/root-store.ts` are not part of this model.
- `src/third-party/api/src/types/app/bsky/getBadgeMembers.d.ts` is not part of this model. The feed never uses it.
