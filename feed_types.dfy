/** Wire types of the feed view query: the items a page carries and the
    parameters a request sends. Record, author and embed contents are opaque
    to the feed logic; they are only moved from a fetched item into the model. */
module FeedTypes {

  datatype Option<+T> = None | Some(value: T)

  datatype Result<+T> = Success(value: T) | Failure(error: string)

  /** An account as the feed shows it (author or resharer). */
  datatype User = User(did: string, name: string, displayName: string)

  /** The post body; its fields are never interpreted by the feed. */
  datatype PostRecord = PostRecord(fields: map<string, string>)

  /** The closed set of embed variants; only the tag is distinguished. */
  datatype Embed =
    | RecordEmbed(payload: string)
    | ExternalEmbed(payload: string)
    | UnknownEmbed(payload: string)

  /** The viewer's own interaction state, when the server sends it. */
  datatype MyState = MyState(hasLiked: bool, hasReposted: bool)

  /** The fields of a feed entry that `copy` always overwrites. */
  datatype PostData = PostData(
    uri: string,
    author: User,
    repostedBy: Option<User>,
    record: PostRecord,
    embed: Option<Embed>,
    replyCount: int,
    repostCount: int,
    likeCount: int,
    indexedAt: string)

  /** One entry of a fetched page: its data and, optionally, the viewer's state. */
  datatype FeedItem = FeedItem(data: PostData, myState: Option<MyState>)

  /** Query parameters: `before` (the cursor), `limit`, and whatever further
      filters the caller stored with the feed. */
  datatype Params = Params(filters: map<string, string>, limit: Option<int>, before: Option<string>)

  /** The answer of one feed view query: a page in server order, or a failure reason. */
  type ViewResult = Result<seq<FeedItem>>

  lemma AppendAssociative<T>(a: seq<T>, b: seq<T>, c: seq<T>)
    ensures a + (b + c) == a + b + c
  {
  }
}
