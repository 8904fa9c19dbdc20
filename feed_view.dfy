/** The feed controller (FeedViewModel): the ordered list of items, the
    loading state machine, and the three loaders that fold fetched pages
    into the list. */
module FeedView {
  import opened FeedTypes
  import opened Gateway
  import opened FeedItems
  import opened ReactKeys
  import opened Reconcile

  class Feed {
    var isLoading: bool
    var isRefreshing: bool
    var hasLoaded: bool
    var error: string
    /** The query parameters given at construction, sent by the initial load and by load-more. */
    const params: Params
    var feed: seq<Item>

    /** No item object appears twice in the list. */
    ghost predicate Distinct()
      reads this`feed
    {
      forall i, j :: 0 <= i < j < |feed| ==> feed[i] != feed[j]
    }

    /** The list invariant: distinct item objects whose display keys are `item-<position>`. */
    ghost predicate Valid()
      reads this`feed, feed
    {
      Distinct() && KeysNumbered(Contents())
    }

    /** The list as values, position by position. */
    function Contents(): (c: seq<ItemView>)
      reads this`feed, feed
      ensures |c| == |feed|
    {
      Views(feed)
    }

    constructor (params: Params)
      ensures Valid() && this.params == params
      ensures Contents() == [] && !isLoading && !isRefreshing && !hasLoaded && error == ""
    {
      isLoading, isRefreshing, hasLoaded, error := false, false, false, "";
      this.params := params;
      feed := [];
    }

    // Derived state

    /** The list has at least one entry. */
    function HasContent(): (b: bool)
      reads this`feed, feed
      ensures b <==> Contents() != []
    {
      |feed| != 0
    }

    /** The last operation ended with an error. */
    function HasError(): (b: bool)
      reads this`error
      ensures b <==> |error| > 0
    {
      error != ""
    }

    /** A load has finished and left the list empty. */
    function IsEmpty(): (b: bool)
      reads this`hasLoaded, this`feed, feed
      ensures b <==> hasLoaded && Contents() == []
    {
      hasLoaded && !HasContent()
    }

    /** The pagination cursor: the indexedAt of the last entry, or nothing
        when the list is empty. */
    function LoadMoreCursor(): (c: Option<string>)
      reads this`feed, feed
      ensures c.Some? <==> Contents() != []
      ensures c.Some? ==> c.value == Contents()[|Contents()| - 1].data.indexedAt
    {
      if !HasContent() then None
      else
        ViewsAt(feed, |feed| - 1);
        Some(feed[|feed| - 1].indexedAt)
    }

    // State transitions

    /** Enter the loading state; any earlier error is cleared. */
    method XLoading(isRefreshing: bool)
      modifies this`isLoading, this`isRefreshing, this`error
      ensures this.isLoading && this.isRefreshing == isRefreshing && error == ""
      ensures Contents() == old(Contents())
    {
      this.isLoading := true;
      this.isRefreshing := isRefreshing;
      error := "";
    }

    /** Leave the loading state with the given error ("" for success); the
        feed counts as loaded from then on. */
    method XIdle(err: string)
      modifies this`isLoading, this`isRefreshing, this`hasLoaded, this`error
      ensures !isLoading && !isRefreshing && hasLoaded && error == err
      ensures Contents() == old(Contents())
    {
      isLoading := false;
      isRefreshing := false;
      hasLoaded := true;
      error := err;
    }

    // Folding pages into the list

    /** Add one new item with display key `item-<keyId>` at the end; the
        existing item objects keep their positions. */
    method Append(keyId: nat, v: FeedItem)
      requires Distinct()
      modifies this`feed
      ensures Distinct()
      ensures Contents() == old(Contents()) + [CopyInto(Blank(ReactKey(keyId)), v)]
      ensures |feed| == |old(feed)| + 1 && feed == old(feed) + [feed[|old(feed)|]] && fresh(feed[|old(feed)|])
      ensures feed[|old(feed)|].View() == CopyInto(Blank(ReactKey(keyId)), v)
    {
      var item := new Item(ReactKey(keyId), v);
      ViewsSnoc(feed, item);
      feed := feed + [item];
    }

    /** Add a page at the end, numbering display keys on from the current
        length; the existing item objects keep their positions. */
    method AppendAll(page: seq<FeedItem>)
      requires Distinct()
      modifies this`feed
      ensures Distinct()
      ensures Contents() == old(Contents()) + NewViews(page, |old(feed)|)
      ensures feed[..|old(feed)|] == old(feed)
    {
      var counter := |feed|;
      ghost var added: seq<Item> := [];
      for i := 0 to |page|
        invariant Distinct()
        invariant counter == |old(feed)| + i == |feed|
        invariant feed == old(feed) + added
        invariant Views(added) == NewViews(page[..i], |old(feed)|)
      {
        ghost var addedViews := Views(added);
        Append(counter, page[i]);
        ghost var item := feed[|feed| - 1];
        assert feed == old(feed) + (added + [item]) by {
          AppendAssociative(old(feed), added, [item]);
        }
        assert Views(added + [item]) == NewViews(page[..i + 1], |old(feed)|) by {
          assert Views(added) == addedViews;
          ViewsSnoc(added, item);
          NewViewsExtend(page, |old(feed)|, i);
        }
        added := added + [item];
        counter := counter + 1;
      }
      assert feed[..|old(feed)|] == old(feed);
      assert Contents() == old(Contents()) + NewViews(page, |old(feed)|) by {
        assert page[..|page|] == page;
        ViewsConcat(old(feed), added);
      }
    }

    /** Discard the list and rebuild it from a page, keys from `item-0`. */
    method ReplaceAll(page: seq<FeedItem>)
      modifies this`feed
      ensures Valid()
      ensures Contents() == NewViews(page, 0)
    {
      feed := [];
      assert Contents() == [];
      AppendAll(page);
      assert [] + NewViews(page, 0) == NewViews(page, 0);
      ReplaceNumbers(page);
    }

    /** Merge a page into the list in place: each fetched item is copied
        into the first entry with its uri and indexedAt, if there is one. */
    method UpdateAll(page: seq<FeedItem>)
      requires Distinct()
      modifies feed
      ensures Contents() == Merge(old(Contents()), page)
    {
      for i := 0 to |page|
        invariant Contents() == Merge(old(Contents()), page[..i])
      {
        ghost var before := Contents();
        var found := FirstMatch(Contents(), page[i]);
        if found.Some? {
          var k := found.value;
          forall j | 0 <= j < |feed|
            ensures before[j] == feed[j].View()
          {
            ViewsAt(feed, j);
          }
          label Merging:
          feed[k].Copy(page[i]);
          forall j | 0 <= j < |feed|
            ensures Contents()[j] == before[k := CopyInto(before[k], page[i])][j]
          {
            ViewsAt(feed, j);
            if j != k {
              assert feed[j] != feed[k];
              assert feed[j].View() == old@Merging(feed[j].View());
            }
          }
        }
        assert page[..i + 1][..i] == page[..i];
      }
      assert page[..|page|] == page;
    }

    // Loaders

    /** `_initialLoad`: one query with the stored parameters; on success the
        list becomes the page, on failure it is left as it was. */
    method InitialLoad(isRefreshing: bool, api: Api)
      requires Valid()
      modifies this, api
      ensures Valid()
      ensures api.sent == old(api.sent) + [ViewRequest(params)]
      ensures var answer := api.viewAnswer(|old(api.sent)|, params);
        && (answer.Success? ==> Contents() == NewViews(answer.value, 0) && error == "")
        && (answer.Failure? ==> feed == old(feed) && Contents() == old(Contents())
                                && error == LoadErrorPrefix + answer.error)
      ensures !this.isLoading && !this.isRefreshing && hasLoaded
    {
      XLoading(isRefreshing);
      var res := api.View(params);
      assert Contents() == old(Contents());
      if res.Success? {
        ReplaceAll(res.value);
        XIdle("");
      } else {
        XIdle(LoadErrorPrefix + res.error);
      }
    }

    /** `_loadMore`: one query with the stored parameters and `before` set
        to the cursor; on success the page is appended, on failure the list
        is left as it was. */
    method LoadMore(api: Api)
      requires Valid()
      modifies this, api
      ensures Valid()
      ensures var request := params.(before := old(LoadMoreCursor()));
        && api.sent == old(api.sent) + [ViewRequest(request)]
        && var answer := api.viewAnswer(|old(api.sent)|, request);
        && (answer.Success? ==> Contents() == old(Contents()) + NewViews(answer.value, |old(feed)|) && error == ""
                                && feed[..|old(feed)|] == old(feed))
        && (answer.Failure? ==> feed == old(feed) && Contents() == old(Contents())
                                && error == LoadErrorPrefix + answer.error)
      ensures !isLoading && !isRefreshing && hasLoaded
    {
      XLoading(false);
      var request := params.(before := LoadMoreCursor());
      var res := api.View(request);
      assert Contents() == old(Contents());
      if res.Success? {
        AppendAll(res.value);
        AppendKeepsNumbering(old(Contents()), res.value);
        XIdle("");
      } else {
        XIdle(LoadErrorPrefix + res.error);
      }
    }

    /** One pass through the body of the do-while loop of `_update`: send
        the query for the countdown and cursor, merge the page into the list,
        and either stop (error, empty page, countdown used up) or hand back
        the countdown and cursor of the next pass. */
    method UpdatePass(api: Api, numToFetch: nat, cursor: Option<string>)
        returns (again: bool, err: string, left: nat, next: Option<string>)
      requires Distinct()
      modifies feed, api
      ensures api.sent == old(api.sent) + [ViewRequest(UpdateParams(cursor, numToFetch))]
      ensures var round := UpdateRound(old(Contents()), api.viewAnswer(|old(api.sent)|, UpdateParams(cursor, numToFetch)), numToFetch);
        && again == round.Again?
        && (round.Stop? ==> Contents() == round.views && err == round.error)
        && (round.Again? ==> Contents() == round.merged && left == round.left && next == round.next)
    {
      var request := UpdateParams(cursor, numToFetch);
      var res := api.View(request);
      assert Contents() == old(Contents());
      if res.Failure? {
        return false, UpdateErrorPrefix + res.error, 0, None;
      }
      var page := res.value;
      if |page| == 0 {
        return false, "", 0, None;
      }
      UpdateAll(page);
      if |page| - 1 >= |feed| {
        return false, UpdateErrorPrefix + IndexError, 0, None;
      }
      ViewsAt(feed, |page| - 1);
      next := Some(feed[|page| - 1].indexedAt);
      if numToFetch - |page| <= 0 {
        return false, "", 0, None;
      }
      return true, "", numToFetch - |page|, next;
    }

    /** The do-while loop of `_update`, from a countdown equal to the
        current length and no cursor; returns the error text ("" when the
        loop ended normally). */
    method UpdatePasses(api: Api) returns (err: string)
      requires Distinct()
      modifies feed, api
      ensures var run := UpdateLoop(old(Contents()), api.viewAnswer, |old(api.sent)|, |feed|, None);
        && Contents() == run.views
        && api.sent == old(api.sent) + ViewRequests(run.requests)
        && err == run.error
    {
      var numToFetch: nat := |feed|;
      var cursor: Option<string> := None;
      err := "";
      ghost var run := UpdateLoop(Contents(), api.viewAnswer, |api.sent|, numToFetch, None);
      ghost var done: seq<Params> := [];
      while true
        invariant api.sent == old(api.sent) + ViewRequests(done)
        invariant var rest := UpdateLoop(Contents(), api.viewAnswer, |api.sent|, numToFetch, cursor);
          run.views == rest.views && run.error == rest.error && run.requests == done + rest.requests
        decreases numToFetch
      {
        ghost var before, sentBefore, doneBefore := Contents(), api.sent, done;
        ghost var numBefore, cursorBefore := numToFetch, cursor;
        ghost var request := UpdateParams(cursor, numToFetch);
        var again, left, next;
        again, err, left, next := UpdatePass(api, numToFetch, cursor);
        assert api.sent == old(api.sent) + ViewRequests(done + [request]) by {
          ViewRequestsExtend(old(api.sent), done, request);
        }
        done := done + [request];
        if !again {
          assert run.views == Contents() && run.error == err && run.requests == done by {
            UpdateLoopStep(before, api.viewAnswer, |sentBefore|, numBefore, cursorBefore);
          }
          break;
        }
        numToFetch, cursor := left, next;
        assert |api.sent| == |sentBefore| + 1;
        assert var rest := UpdateLoop(Contents(), api.viewAnswer, |api.sent|, numToFetch, cursor);
          run.views == rest.views && run.error == rest.error && run.requests == done + rest.requests
        by {
          UpdateLoopStep(before, api.viewAnswer, |sentBefore|, numBefore, cursorBefore);
          var rest := UpdateLoop(Contents(), api.viewAnswer, |api.sent|, numToFetch, cursor);
          AppendAssociative(doneBefore, [request], rest.requests);
        }
      }
    }

    /** `_update`: refresh the entries in place, page by page, counting down
        from the current length; stops on an empty page, when the countdown
        is used up, or on the first error. */
    method Update(api: Api)
      requires Valid()
      modifies this, feed, api
      ensures Valid() && feed == old(feed) && SameKeys(old(Contents()), Contents())
      ensures var run := UpdateLoop(old(Contents()), api.viewAnswer, |old(api.sent)|, |old(feed)|, None);
        && Contents() == run.views
        && api.sent == old(api.sent) + ViewRequests(run.requests)
        && error == run.error
      ensures !isLoading && !isRefreshing && hasLoaded
    {
      ghost var views0, sent0 := Contents(), api.sent;
      XLoading(false);
      var err := UpdatePasses(api);
      ghost var run := UpdateLoop(views0, api.viewAnswer, |sent0|, |feed|, None);
      UpdateKeepsKeys(views0, api.viewAnswer, |sent0|, |feed|, None, run);
      SameKeysNumbered(views0, run.views);
      XIdle(err);
    }
  }
}
