/** One entry of the feed (FeedViewItemModel): its fields, `copy`, and the
    like/repost toggles that change it after the remote write succeeds. */
module FeedItems {
  import opened FeedTypes
  import opened Gateway

  /** A snapshot of every field of an item: its display key, the data
      `copy` overwrites, and the viewer's flags. */
  datatype ItemView = ItemView(reactKey: string, data: PostData, hasLiked: bool, hasReposted: bool)

  /** The state of a freshly allocated item, before its constructor copies data in. */
  function Blank(reactKey: string): (r: ItemView)
    ensures r.reactKey == reactKey && !r.hasLiked && !r.hasReposted
    ensures r.data.uri == "" && r.data.indexedAt == "" && r.data.repostedBy.None? && r.data.embed.None?
    ensures r.data.replyCount == 0 && r.data.repostCount == 0 && r.data.likeCount == 0
  {
    ItemView(reactKey, PostData("", User("", "", ""), None, PostRecord(map[]), None, 0, 0, 0, ""), false, false)
  }

  /** What `copy(v)` makes of an item x: the display key stays, all data is
      v's, and the flags are v's only when v carries them. */
  function CopyInto(x: ItemView, v: FeedItem): (r: ItemView)
    ensures r.reactKey == x.reactKey && r.data == v.data
    ensures v.myState.Some? ==> r.hasLiked == v.myState.value.hasLiked && r.hasReposted == v.myState.value.hasReposted
    ensures v.myState.None? ==> r.hasLiked == x.hasLiked && r.hasReposted == x.hasReposted
  {
    match v.myState
    case Some(st) => ItemView(x.reactKey, v.data, st.hasLiked, st.hasReposted)
    case None => x.(data := v.data)
  }

  /** Copying the same item twice is copying it once. */
  lemma CopyIdempotent(x: ItemView, v: FeedItem)
    ensures CopyInto(CopyInto(x, v), v) == CopyInto(x, v)
  {
  }

  /** A later copy overwrites all the data of an earlier one; only the
      viewer flags survive, and only when the later item carries none. */
  lemma CopyOverwrites(x: ItemView, a: FeedItem, b: FeedItem)
    ensures b.myState.Some? ==> CopyInto(CopyInto(x, a), b) == CopyInto(x, b)
    ensures CopyInto(CopyInto(x, a), b).data == b.data
  {
  }

  /** The remote write `toggleLike` issues for an item in state x. */
  function LikeWrite(x: ItemView): (w: Write)
    ensures w.actor == Actor && w.uri == x.data.uri
    ensures w.Unlike? <==> x.hasLiked
    ensures w.Like? <==> !x.hasLiked
  {
    if x.hasLiked then Unlike(Actor, x.data.uri) else Like(Actor, x.data.uri)
  }

  /** The remote write `toggleRepost` issues for an item in state x. */
  function RepostWrite(x: ItemView): (w: Write)
    ensures w.actor == Actor && w.uri == x.data.uri
    ensures w.Unrepost? <==> x.hasReposted
    ensures w.Repost? <==> !x.hasReposted
  {
    if x.hasReposted then Unrepost(Actor, x.data.uri) else Repost(Actor, x.data.uri)
  }

  /** The local effect of a successful like toggle: the flag flips, the
      counter moves by one in the same direction, nothing else changes. */
  function FlipLike(x: ItemView): (r: ItemView)
    ensures r.hasLiked == !x.hasLiked
    ensures r.data.likeCount == if x.hasLiked then x.data.likeCount - 1 else x.data.likeCount + 1
    ensures r.(hasLiked := x.hasLiked, data := r.data.(likeCount := x.data.likeCount)) == x
  {
    var count := if x.hasLiked then x.data.likeCount - 1 else x.data.likeCount + 1;
    x.(data := x.data.(likeCount := count), hasLiked := !x.hasLiked)
  }

  /** The local effect of a successful repost toggle. */
  function FlipRepost(x: ItemView): (r: ItemView)
    ensures r.hasReposted == !x.hasReposted
    ensures r.data.repostCount == if x.hasReposted then x.data.repostCount - 1 else x.data.repostCount + 1
    ensures r.(hasReposted := x.hasReposted, data := r.data.(repostCount := x.data.repostCount)) == x
  {
    var count := if x.hasReposted then x.data.repostCount - 1 else x.data.repostCount + 1;
    x.(data := x.data.(repostCount := count), hasReposted := !x.hasReposted)
  }

  /** Two successful toggles in a row restore the item. */
  lemma FlipsAreInvolutions(x: ItemView)
    ensures FlipLike(FlipLike(x)) == x
    ensures FlipRepost(FlipRepost(x)) == x
  {
  }

  class Item {
    var reactKey: string
    var uri: string
    var author: User
    var repostedBy: Option<User>
    var record: PostRecord
    var embed: Option<Embed>
    var replyCount: int
    var repostCount: int
    var likeCount: int
    var indexedAt: string
    var hasLiked: bool
    var hasReposted: bool

    function View(): ItemView
      reads this
    {
      ItemView(reactKey, PostData(uri, author, repostedBy, record, embed,
                                  replyCount, repostCount, likeCount, indexedAt),
               hasLiked, hasReposted)
    }

    /** A new item with the given display key, filled from v. */
    constructor (reactKey: string, v: FeedItem)
      ensures View() == CopyInto(Blank(reactKey), v)
    {
      this.reactKey := reactKey;
      uri := "";
      author := User("", "", "");
      repostedBy := None;
      record := PostRecord(map[]);
      embed := None;
      replyCount, repostCount, likeCount := 0, 0, 0;
      indexedAt := "";
      hasLiked, hasReposted := false, false;
      new;
      Copy(v);
    }

    /** Overwrite this item's data with that of v; the display key stays. */
    method Copy(v: FeedItem)
      modifies this
      ensures View() == CopyInto(old(View()), v)
    {
      uri, author, repostedBy, record, embed := v.data.uri, v.data.author, v.data.repostedBy, v.data.record, v.data.embed;
      replyCount, repostCount, likeCount := v.data.replyCount, v.data.repostCount, v.data.likeCount;
      indexedAt := v.data.indexedAt;
      assert View().data == v.data;
      if v.myState.Some? {
        hasLiked := v.myState.value.hasLiked;
        hasReposted := v.myState.value.hasReposted;
      }
      assert View() == ItemView(reactKey, v.data, hasLiked, hasReposted);
    }

    /** Send unlike (when liked) or like, and only if that succeeds flip the
        flag and move the like counter. A failure leaves the item as it was. */
    method ToggleLike(api: Api) returns (outcome: Outcome)
      modifies this, api
      ensures api.sent == old(api.sent) + [WriteRequest(LikeWrite(old(View())))]
      ensures outcome == api.writeAnswer(|old(api.sent)|, LikeWrite(old(View())))
      ensures View() == if outcome.Pass? then FlipLike(old(View())) else old(View())
    {
      if hasLiked {
        outcome := api.Send(Unlike(Actor, uri));
        if outcome.Pass? {
          likeCount := likeCount - 1;
          hasLiked := false;
        }
      } else {
        outcome := api.Send(Like(Actor, uri));
        if outcome.Pass? {
          likeCount := likeCount + 1;
          hasLiked := true;
        }
      }
    }

    /** Send unrepost (when reposted) or repost, and only if that succeeds
        flip the flag and move the repost counter. */
    method ToggleRepost(api: Api) returns (outcome: Outcome)
      modifies this, api
      ensures api.sent == old(api.sent) + [WriteRequest(RepostWrite(old(View())))]
      ensures outcome == api.writeAnswer(|old(api.sent)|, RepostWrite(old(View())))
      ensures View() == if outcome.Pass? then FlipRepost(old(View())) else old(View())
    {
      if hasReposted {
        outcome := api.Send(Unrepost(Actor, uri));
        if outcome.Pass? {
          repostCount := repostCount - 1;
          hasReposted := false;
        }
      } else {
        outcome := api.Send(Repost(Actor, uri));
        if outcome.Pass? {
          repostCount := repostCount + 1;
          hasReposted := true;
        }
      }
    }
  }

  /** The snapshots of a list of items, position by position. */
  function Views(items: seq<Item>): (r: seq<ItemView>)
    reads items
    ensures |r| == |items|
  {
    if items == [] then [] else Views(items[..|items| - 1]) + [items[|items| - 1].View()]
  }

  lemma {:induction false} ViewsAt(items: seq<Item>, i: nat)
    requires i < |items|
    ensures Views(items)[i] == items[i].View()
    decreases |items|
  {
    if i < |items| - 1 {
      ViewsAt(items[..|items| - 1], i);
    }
  }

  lemma ViewsSnoc(items: seq<Item>, x: Item)
    ensures Views(items + [x]) == Views(items) + [x.View()]
  {
    assert (items + [x])[..|items|] == items;
  }

  /** The snapshots of two lists joined are the two lists of snapshots joined. */
  lemma {:induction false} ViewsConcat(a: seq<Item>, b: seq<Item>)
    ensures Views(a + b) == Views(a) + Views(b)
    decreases |b|
  {
    if b == [] {
      assert a + b == a;
    } else {
      var front, x := b[..|b| - 1], b[|b| - 1];
      assert a + b == (a + front) + [x];
      assert b == front + [x];
      ViewsConcat(a, front);
      ViewsSnoc(a + front, x);
      ViewsSnoc(front, x);
      AppendAssociative(Views(a), Views(front), [x.View()]);
    }
  }
}
