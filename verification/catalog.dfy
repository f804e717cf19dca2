/** The video catalog: documents of the `videos` collection and the orders in
    which the code base reads them.

    A catalog is held as a sequence in ascending `created_at` order, which is the
    order `videos.find().sort("created_at", 1)` returns.  Inserting a document
    places it after every document that is not younger than it; with a clock that
    never goes back this is an append. */
module Catalog {
  import opened Common

  /** A `videos` document.  Different writers set different fields:
      `channel_id`/`message_id` (app/telegram/handlers.py),
      `type`/`from_channel_id`/`channel_title`/`channel_post_id`
      (app/telegram/channel_import.py); a field a writer does not set is `None`. */
  datatype VideoDoc = VideoDoc(
    fileId: string,
    caption: string,
    createdAt: Time,
    mediaType: Option<string>,
    channelId: Option<int>,
    messageId: Option<int>,
    fromChannelId: Option<int>,
    channelTitle: Option<string>,
    channelPostId: Option<int>)

  /** A channel post as Telegram delivers it.  Each media slot holds the
      `file_id` of that attachment when the post carries one. */
  datatype ChannelPost = ChannelPost(
    chatId: int,
    chatTitle: Option<string>,
    messageId: int,
    caption: Option<string>,
    video: Option<string>,
    animation: Option<string>,
    document: Option<string>,
    videoNote: Option<string>)

  /** Ascending `created_at` order. */
  predicate Ordered(vs: seq<VideoDoc>)
  {
    forall i, j :: 0 <= i < j < |vs| ==> vs[i].createdAt <= vs[j].createdAt
  }

  /** `insert_one` seen through the ascending `created_at` view. */
  function InsertByTime(vs: seq<VideoDoc>, d: VideoDoc): (r: seq<VideoDoc>)
    requires Ordered(vs)
    ensures Ordered(r)
    ensures multiset(r) == multiset(vs) + multiset{d}
    ensures vs == [] || vs[|vs| - 1].createdAt <= d.createdAt ==> r == vs + [d]
  {
    if vs == [] || vs[|vs| - 1].createdAt <= d.createdAt then vs + [d]
    else
      var pre, last := vs[..|vs| - 1], vs[|vs| - 1];
      assert vs == pre + [last];
      var rest := InsertByTime(pre, d);
      NoneAfter(pre, rest, d, last);
      rest + [last]
  }

  /** A permutation of `pre` plus `d` holds nothing younger than `last` when
      neither `pre` nor `d` does. */
  lemma NoneAfter(pre: seq<VideoDoc>, rest: seq<VideoDoc>, d: VideoDoc, last: VideoDoc)
    requires forall k :: 0 <= k < |pre| ==> pre[k].createdAt <= last.createdAt
    requires d.createdAt <= last.createdAt
    requires multiset(rest) == multiset(pre) + multiset{d}
    ensures forall k :: 0 <= k < |rest| ==> rest[k].createdAt <= last.createdAt
  {
    forall k | 0 <= k < |rest| ensures rest[k].createdAt <= last.createdAt {
      assert rest[k] in multiset(rest);
      assert rest[k] in multiset(pre) || rest[k] == d;
    }
  }

  /** The first `n` documents in ascending `created_at` order (`.limit(n)`). */
  function Oldest(vs: seq<VideoDoc>, n: nat): (r: seq<VideoDoc>)
    ensures |r| == if |vs| < n then |vs| else n
    ensures r <= vs
  {
    if |vs| < n then vs else vs[..n]
  }

  /** `vs` in reverse order. */
  function Reverse(vs: seq<VideoDoc>): (r: seq<VideoDoc>)
    ensures |r| == |vs|
    ensures forall k :: 0 <= k < |vs| ==> r[k] == vs[|vs| - 1 - k]
  {
    if vs == [] then [] else [vs[|vs| - 1]] + Reverse(vs[..|vs| - 1])
  }

  /** The first `n` documents in descending `created_at` order
      (`.sort("created_at", -1).to_list(length=n)`). */
  function Newest(vs: seq<VideoDoc>, n: nat): (r: seq<VideoDoc>)
    requires Ordered(vs)
    ensures |r| == if |vs| < n then |vs| else n
    ensures forall k :: 0 <= k < |r| ==> r[k] == vs[|vs| - 1 - k]
    ensures forall i, j :: 0 <= i < j < |r| ==> r[i].createdAt >= r[j].createdAt
  {
    var rev := Reverse(vs);
    if |rev| < n then rev else rev[..n]
  }
}
