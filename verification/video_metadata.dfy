/**
 * The field mapping of `get_video_metadata` in api/index.py, applied to a
 * YouTube Data API reply that has already been fetched and decoded, and
 * the metadata record app.py builds from a pytube video.
 */
module VideoMetadata {
  import opened Wrappers
  import opened Json
  import opened IdAlphabet
  import VideoId

  /** One element of the reply's `items`; an absent part is an empty map. */
  datatype VideoItem = VideoItem(
    snippet: map<string, string>,
    contentDetails: map<string, string>,
    statistics: map<string, string>)

  /** The outcome of the Data API request: a request error (including a failed status or body decode), or the decoded `items`. */
  datatype VideoListing = RequestFailed(error: string) | Listed(items: seq<VideoItem>)

  datatype Metadata = Metadata(
    videoId: string,
    videoUrl: string,
    title: string,
    channelName: string,
    description: string,
    publishDate: string,
    viewCount: int,
    durationSeconds: int)

  /** The start of the canonical `video_url` the record carries. */
  const WatchUrlPrefix := "https://www.youtube.com/watch?v="
  const NotFoundError := "Video not found or not accessible"
  const RequestErrorLead := "YouTube API error: "
  const ParseErrorLead := "Error processing YouTube data: "

  /** `d.get(key, default)` */
  function GetOr(d: map<string, string>, key: string, default: string): string {
    if key in d then d[key] else default
  }

  /**
   * `get_video_metadata`. `parseDuration` stands for
   * `int(isodate.parse_duration(d).total_seconds())` and `parseInt` for
   * Python's `int(s)`; each either yields a number or fails with the
   * message of the ValueError it raises.
   */
  function GetVideoMetadata(
    videoId: string,
    listing: VideoListing,
    parseDuration: string -> Result<int, string>,
    parseInt: string -> Result<int, string>): (r: Result<Metadata, string>)
    ensures listing.RequestFailed? ==> r == Failure(RequestErrorLead + listing.error)
    ensures listing.Listed? && |listing.items| == 0 ==> r == Failure(NotFoundError)
    ensures listing.Listed? && |listing.items| > 0 ==>
              var item := listing.items[0];
              var duration := parseDuration(GetOr(item.contentDetails, "duration", "PT0S"));
              && (duration.Failure? ==> r == Failure(ParseErrorLead + duration.error))
              && (duration.Success? && "viewCount" in item.statistics && parseInt(item.statistics["viewCount"]).Failure? ==>
                    r == Failure(ParseErrorLead + parseInt(item.statistics["viewCount"]).error))
              && (r.Success? ==> r.value.durationSeconds == duration.value)
              && (r.Success? && "viewCount" in item.statistics ==> r.value.viewCount == parseInt(item.statistics["viewCount"]).value)
              && (r.Success? && "viewCount" !in item.statistics ==> r.value.viewCount == 0)
              && (duration.Success? && ("viewCount" !in item.statistics || parseInt(item.statistics["viewCount"]).Success?) ==>
                    r.Success?)
              && (r.Success? && "title" in item.snippet ==> r.value.title == item.snippet["title"])
              && (r.Success? && "title" !in item.snippet ==> r.value.title == "Title not available")
              && (r.Success? && "channelTitle" in item.snippet ==> r.value.channelName == item.snippet["channelTitle"])
              && (r.Success? && "channelTitle" !in item.snippet ==> r.value.channelName == "Channel name not available")
              && (r.Success? && "description" in item.snippet ==> r.value.description == item.snippet["description"])
              && (r.Success? && "description" !in item.snippet ==> r.value.description == "Description not available")
              && (r.Success? && "publishedAt" in item.snippet ==> r.value.publishDate == item.snippet["publishedAt"])
              && (r.Success? && "publishedAt" !in item.snippet ==> r.value.publishDate == "Publish date not available")
    ensures r.Success? ==> r.value.videoId == videoId && r.value.videoUrl == WatchUrlPrefix + videoId
  {
    match listing
    case RequestFailed(e) => Failure(RequestErrorLead + e)
    case Listed(items) =>
      if |items| == 0 then Failure(NotFoundError)
      else
        var item := items[0];
        match parseDuration(GetOr(item.contentDetails, "duration", "PT0S"))
        case Failure(e) => Failure(ParseErrorLead + e)
        case Success(seconds) =>
          var views := if "viewCount" in item.statistics then parseInt(item.statistics["viewCount"]) else Success(0);
          match views
          case Failure(e) => Failure(ParseErrorLead + e)
          case Success(count) =>
            Success(Metadata(
              videoId,
              WatchUrlPrefix + videoId,
              GetOr(item.snippet, "title", "Title not available"),
              GetOr(item.snippet, "channelTitle", "Channel name not available"),
              GetOr(item.snippet, "description", "Description not available"),
              GetOr(item.snippet, "publishedAt", "Publish date not available"),
              count,
              seconds))
  }

  /** Snippet fields the reply leaves out are filled with their placeholders; present ones are copied. */
  lemma SnippetDefaults(videoId: string, item: VideoItem, rest: seq<VideoItem>,
                        parseDuration: string -> Result<int, string>, parseInt: string -> Result<int, string>)
    requires GetVideoMetadata(videoId, Listed([item] + rest), parseDuration, parseInt).Success?
    ensures var m := GetVideoMetadata(videoId, Listed([item] + rest), parseDuration, parseInt).value;
      && ("title" in item.snippet ==> m.title == item.snippet["title"])
      && ("title" !in item.snippet ==> m.title == "Title not available")
      && ("channelTitle" in item.snippet ==> m.channelName == item.snippet["channelTitle"])
      && ("channelTitle" !in item.snippet ==> m.channelName == "Channel name not available")
      && ("description" in item.snippet ==> m.description == item.snippet["description"])
      && ("description" !in item.snippet ==> m.description == "Description not available")
      && ("publishedAt" in item.snippet ==> m.publishDate == item.snippet["publishedAt"])
      && ("publishedAt" !in item.snippet ==> m.publishDate == "Publish date not available")
  {
    assert ([item] + rest)[0] == item;
  }

  /**
   * The canonical URL the record carries leads back to its identifier:
   * for every identifier `extract_video_id` can return, extracting from
   * `video_url` gives the same identifier.
   */
  lemma WatchUrlPrefixText()
    ensures VideoId.PrefixText(VideoId.Prefix(VideoId.Https, true, VideoId.YouTube, VideoId.Com)) + "watch?v=" == WatchUrlPrefix
  {
  }

  lemma WatchUrlRoundTrip(url: string, id: string)
    requires VideoId.ExtractVideoId(url) == Some(id)
    ensures VideoId.ExtractVideoId(WatchUrlPrefix + id) == Some(id)
  {
    WatchUrlReturnsToken(id);
  }

  lemma WatchUrlReturnsToken(id: string)
    requires VideoId.IsToken(id)
    ensures VideoId.ExtractVideoId(WatchUrlPrefix + id) == Some(id)
  {
    WatchUrlPrefixText();
    VideoId.WatchUrlForm(VideoId.Prefix(VideoId.Https, true, VideoId.YouTube, VideoId.Com), id);
  }

  /** The record as the handlers serialise it. */
  function MetadataJson(m: Metadata): Json {
    JObject(map[
      "video_id" := JStr(m.videoId),
      "video_url" := JStr(m.videoUrl),
      "title" := JStr(m.title),
      "channel_name" := JStr(m.channelName),
      "description" := JStr(m.description),
      "publish_date" := JStr(m.publishDate),
      "view_count" := JInt(m.viewCount),
      "duration_seconds" := JInt(m.durationSeconds)
    ])
  }

  // ---------------------------------------------------------------------
  // app.py: the pytube record
  // ---------------------------------------------------------------------

  /** The attributes app.py reads off `YouTube(video_url)`; `publishDate` is `publish_date.isoformat()` or `None`. */
  datatype PytubeVideo = PytubeVideo(
    title: string,
    author: string,
    views: int,
    publishDate: Option<string>,
    description: string,
    length: int)

  /** The metadata object of app.py: the raw input URL and the identifier the regex found, beside pytube's fields. */
  function PytubeMetadata(video: PytubeVideo, videoUrl: string, videoId: string): Json {
    JObject(map[
      "title" := JStr(video.title),
      "channel_name" := JStr(video.author),
      "view_count" := JInt(video.views),
      "publish_date" := (match video.publishDate case Some(d) => JStr(d) case None => JNull),
      "description" := JStr(video.description),
      "duration_seconds" := JInt(video.length),
      "video_url" := JStr(videoUrl),
      "video_id" := JStr(videoId)
    ])
  }
}
