/**
 * The conversation flow: `handle_message` (bot.py:65-79), the popularity gate
 * and session write of `process_youtube_url` (bot.py:164-223) and the dispatch
 * of `handle_callback` (bot.py:225-242).
 *
 * A `Session` stands for one user's `context.user_data`; its `pending` field
 * is the entry `'video_info'`.  The chat messages themselves are left out: a
 * handler returns which reply it gives.
 */
module Conversation {
  import opened Wrappers
  import opened UrlClassifier
  import opened Duration
  import opened Extraction
  import opened Download

  /** The outcome of `likes < self.likes_threshold` (bot.py:192). */
  datatype Verdict = Pass | Below | TypeMismatch

  /**
   * The popularity gate: a like count equal to the threshold passes.  A like
   * count that is not a number (a `None` the engine reported) cannot be compared
   * with the threshold, and Python raises `TypeError`.
   */
  function Gate(likes: Value, threshold: int): (v: Verdict)
    ensures v == Pass <==> likes.Int? && likes.i >= threshold
    ensures v == Below <==> likes.Int? && likes.i < threshold
    ensures v == TypeMismatch <==> !likes.Int?
  {
    match likes
    case Int(n) => if n < threshold then Below else Pass
    case _ => TypeMismatch
  }

  /** `format_duration` applied to a raw value: anything but a number makes `divmod` raise. */
  function DurationText(duration: Value): (r: Option<string>)
    ensures r.Some? <==> duration.Int?
    ensures duration == Int(0) ==> r == Some("Unknown")
    ensures duration.Int? ==> r == Some(FormatDuration(duration.i))
    ensures duration.Int? && duration.i > 0 ==> r.Some? && ClockValue(SplitColons(r.value)) == duration.i
  {
    if duration.Int? then
      if duration.i > 0 then FormatDurationRoundTrip(duration.i); Some(FormatDuration(duration.i))
      else Some(FormatDuration(duration.i))
    else None
  }

  /** What the bot answers to a text message. */
  datatype Reply =
    | NotAUrl                                              // the list of supported formats (bot.py:72-79)
    | NotFound                                             // no strategy succeeded (bot.py:172-184)
    | Crashed                                              // a `TypeError` escapes the handler
    | Rejected(likes: int, required: int, title: Value, uploader: Value)   // bot.py:192-201
    | Offered(info: Metadata, duration: string)            // the format choice (bot.py:204-223)

  /**
   * `process_youtube_url` once the metadata is resolved: the duration text is
   * computed first (bot.py:190), then the likes are compared (bot.py:192).
   */
  function UrlReply(resolved: Option<Metadata>, threshold: int): (r: Reply)
    ensures r != NotAUrl
    ensures r == NotFound <==> resolved.None?
    ensures r.Offered? <==>
      resolved.Some? && resolved.value.duration.Int? && Gate(resolved.value.likeCount, threshold) == Pass
    ensures r.Offered? ==> r.info == resolved.value && Some(r.duration) == DurationText(r.info.duration)
    ensures r.Rejected? <==>
      resolved.Some? && resolved.value.duration.Int? && Gate(resolved.value.likeCount, threshold) == Below
    ensures r.Rejected? ==> r.likes < r.required == threshold && Int(r.likes) == resolved.value.likeCount
    ensures r.Rejected? ==> r.title == resolved.value.title && r.uploader == resolved.value.uploader
  {
    match resolved
    case None => NotFound
    case Some(info) =>
      match DurationText(info.duration)
      case None => Crashed
      case Some(text) =>
        match Gate(info.likeCount, threshold)
        case TypeMismatch => Crashed
        case Below => Rejected(info.likeCount.i, threshold, info.title, info.uploader)
        case Pass => Offered(info, text)
  }

  /** What pressing a button leads to. */
  datatype Action =
    | Cancelled                               // bot.py:230-232
    | Expired                                 // no stored info (bot.py:234-237)
    | Start(formatType: string, info: Metadata)   // `download_and_send` (bot.py:239-242)
    | NoAction                                // any other callback data

  class Session {
    /** `self.likes_threshold`, fixed when the bot is created. */
    const likesThreshold: int
    /** `context.user_data['video_info']`: the last approved record, if any. */
    var pending: Option<Metadata>

    constructor (likesThreshold: int)
      ensures this.likesThreshold == likesThreshold && pending == None
    {
      this.likesThreshold := likesThreshold;
      pending := None;
    }

    /**
     * `handle_message` and `process_youtube_url`: only an approved video is
     * stored, replacing whatever was stored before; any other reply leaves
     * the stored record as it was.
     */
    method HandleMessage(text: string, extract: (string, Config) -> Option<RawInfo>) returns (reply: Reply)
      modifies this
      ensures reply == (if IsYoutubeUrl(text) then UrlReply(FirstSuccess(text, Strategies, extract), likesThreshold) else NotAUrl)
      ensures pending == (if reply.Offered? then Some(reply.info) else old(pending))
      ensures reply.Offered? ==> reply.info.url == text && Gate(reply.info.likeCount, likesThreshold) == Pass
    {
      if !IsYoutubeUrl(text) {
        return NotAUrl;
      }
      var resolved, _ := GetVideoInfo(text, extract);
      reply := UrlReply(resolved, likesThreshold);
      if reply.Offered? {
        pending := Some(reply.info);
      }
    }

    /**
     * `handle_callback`: `cancel` is answered before the stored record is looked
     * at; without a stored record nothing is downloaded; `download_mp4` and
     * `download_mp3` start the download of the stored record as MP4 or MP3.
     * Nothing here changes the stored record, not even `cancel`.
     */
    method HandleCallback(data: string) returns (action: Action)
      ensures data == "cancel" ==> action == Cancelled
      ensures data != "cancel" && pending.None? ==> action == Expired
      ensures data != "cancel" && pending.Some? ==>
        action == (if data == "download_mp4" then Start("mp4", pending.value)
                   else if data == "download_mp3" then Start("mp3", pending.value)
                   else NoAction)
      ensures action.Start? ==> (KindOf(action.formatType) == Video <==> data == "download_mp4")
    {
      if data == "cancel" {
        return Cancelled;
      }
      if pending.None? {
        return Expired;
      }
      if data == "download_mp4" {
        action := Start("mp4", pending.value);
      } else if data == "download_mp3" {
        action := Start("mp3", pending.value);
      } else {
        action := NoAction;
      }
    }
  }
}
