/** app/telegram/channel_import.py: importing a storage-channel post into the
    catalog, with a channel filter, a media priority and a duplicate guard. */
module ChannelImport {
  import opened Common
  import opened Catalog
  import opened VideoService

  /** The attachment chosen: its file id and the `type` recorded for it. */
  datatype Media = Media(fileId: string, kind: string)

  /** video, then animation, then document, then video_note: the first
      attachment the post carries, whatever its file id. */
  function SelectMedia(post: ChannelPost): (r: Option<Media>)
    ensures r.None? <==> post.video.None? && post.animation.None? && post.document.None? && post.videoNote.None?
    ensures post.video.Some? ==> r == Some(Media(post.video.value, "video"))
    ensures post.video.None? && post.animation.Some? ==> r == Some(Media(post.animation.value, "animation"))
    ensures post.video.None? && post.animation.None? && post.document.Some? ==>
              r == Some(Media(post.document.value, "document"))
    ensures post.video.None? && post.animation.None? && post.document.None? && post.videoNote.Some? ==>
              r == Some(Media(post.videoNote.value, "video_note"))
  {
    if post.video.Some? then Some(Media(post.video.value, "video"))
    else if post.animation.Some? then Some(Media(post.animation.value, "animation"))
    else if post.document.Some? then Some(Media(post.document.value, "document"))
    else if post.videoNote.Some? then Some(Media(post.videoNote.value, "video_note"))
    else None
  }

  /** An entry with the same file id or imported from the same channel message. */
  predicate IsDuplicate(videos: seq<VideoDoc>, fileId: string, messageId: int)
  {
    exists k :: 0 <= k < |videos| && (videos[k].fileId == fileId || videos[k].channelPostId == Some(messageId))
  }

  /** The document inserted for an accepted post. */
  function ImportedDoc(post: ChannelPost, m: Media, now: Time): (d: VideoDoc)
    ensures d.fileId == m.fileId && d.mediaType == Some(m.kind) && d.createdAt == now
    ensures d.caption == if post.caption.Some? then post.caption.value else ""
    ensures d.fromChannelId == Some(post.chatId) && d.channelTitle == post.chatTitle
    ensures d.channelPostId == Some(post.messageId)
    ensures d.channelId.None? && d.messageId.None?
  {
    VideoDoc(m.fileId, match post.caption case Some(c) => c case None => "", now,
             Some(m.kind), None, None, Some(post.chatId), post.chatTitle, Some(post.messageId))
  }

  /** `import_channel_post`.  `storeUp` is false when the collection raises,
      which the function turns into `None` with nothing inserted. */
  function ImportStep(videos: seq<VideoDoc>, binChannel: Option<int>, post: ChannelPost, now: Time,
                      storeUp: bool): (r: (seq<VideoDoc>, Option<VideoDoc>))
    requires Ordered(videos)
    ensures Ordered(r.0)
    ensures r.1.None? ==> r.0 == videos
    ensures binChannel.Some? && post.chatId != binChannel.value ==> r.1.None?
    ensures r.1.Some? <==>
              (binChannel.None? || post.chatId == binChannel.value) &&
              SelectMedia(post).Some? && SelectMedia(post).value.fileId != "" &&
              storeUp && !IsDuplicate(videos, SelectMedia(post).value.fileId, post.messageId)
    ensures r.1.Some? ==>
              r.1.value == ImportedDoc(post, SelectMedia(post).value, now) &&
              multiset(r.0) == multiset(videos) + multiset{r.1.value}
  {
    if binChannel.Some? && post.chatId != binChannel.value then (videos, None)
    else match SelectMedia(post)
      case None => (videos, None)
      case Some(m) =>
        if m.fileId == "" || !storeUp then (videos, None)
        else if IsDuplicate(videos, m.fileId, post.messageId) then (videos, None)
        else
          var d := ImportedDoc(post, m, now);
          (InsertByTime(videos, d), Some(d))
  }

  /** Importing the same post again inserts nothing. */
  lemma ImportOnce(videos: seq<VideoDoc>, binChannel: Option<int>, post: ChannelPost, now: Time, later: Time)
    requires Ordered(videos)
    requires ImportStep(videos, binChannel, post, now, true).1.Some?
    ensures var once := ImportStep(videos, binChannel, post, now, true).0;
            ImportStep(once, binChannel, post, later, true) == (once, None)
  {
    var r := ImportStep(videos, binChannel, post, now, true);
    var d := r.1.value;
    assert d in multiset(r.0);
    var k :| 0 <= k < |r.0| && r.0[k] == d;
    assert IsDuplicate(r.0, SelectMedia(post).value.fileId, post.messageId);
  }

  /** The import over the app deployment's `videos` collection. */
  method ImportChannelPost(db: AppDb, binChannel: Option<int>, post: ChannelPost, now: Time, storeUp: bool)
    returns (doc: Option<VideoDoc>)
    requires Ordered(db.videos)
    modifies db
    ensures db.videos == ImportStep(old(db.videos), binChannel, post, now, storeUp).0
    ensures doc == ImportStep(old(db.videos), binChannel, post, now, storeUp).1
    ensures db.users == old(db.users)
  {
    if binChannel.Some? && post.chatId != binChannel.value {
      return None;
    }
    var fileId: string := "";
    var kind: string := "";
    if post.video.Some? {
      fileId, kind := post.video.value, "video";
    } else if post.animation.Some? {
      fileId, kind := post.animation.value, "animation";
    } else if post.document.Some? {
      fileId, kind := post.document.value, "document";
    } else if post.videoNote.Some? {
      fileId, kind := post.videoNote.value, "video_note";
    }
    if fileId == "" || !storeUp {
      return None;
    }
    if IsDuplicate(db.videos, fileId, post.messageId) {
      return None;
    }
    var d := VideoDoc(fileId, if post.caption.Some? then post.caption.value else "", now,
                      Some(kind), None, None, Some(post.chatId), post.chatTitle, Some(post.messageId));
    db.videos := InsertByTime(db.videos, d);
    doc := Some(d);
  }
}
