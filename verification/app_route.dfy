/**
 * The `/get_youtube_data` route of app.py: a JSON body with a `video_url`,
 * the identifier found by `re.search`, pytube's metadata and a transcript
 * with a message for each kind of failure.
 */
module AppRoute {
  import opened Wrappers
  import opened Json
  import opened Http
  import opened IdAlphabet
  import opened SearchId
  import opened Transcript
  import opened VideoMetadata

  /** The libraries the route calls, as functions of what they are given. */
  datatype Services = Services(
    /** `YouTube(video_url)` and the attributes read from it; `Failure(str(e))` when any of them raises. */
    fetchVideo: string -> Result<PytubeVideo, string>,
    /** `list_transcripts`, `find_transcript(['en', 'en-US', 'en-GB'])` and `fetch()` together. */
    fetchTranscript: string -> TranscriptOutcome)

  const InternalErrorLead := "Internal Server Error: "
  const NoUrlError := "No video URL provided."
  const InvalidUrlError := "Invalid YouTube URL."

  /** The outer `except Exception`: status 500 with the exception's text. */
  function Crash(message: string): Reply {
    JsonReply(500, ErrorObject(InternalErrorLead + message))
  }

  /** The successful reply for a video found at `url` under the identifier `id`. */
  function SuccessReply(video: PytubeVideo, url: string, id: string, transcript: string): Reply {
    JsonReply(200, JObject(map["metadata" := PytubeMetadata(video, url, id), "transcript" := JStr(transcript)]))
  }

  /** The part of the route that follows a non-empty string `video_url`. */
  function ForUrl(url: string, svc: Services): (r: Reply)
    ensures SearchVideoId(url).None? ==> r == JsonReply(400, ErrorObject(InvalidUrlError))
    ensures forall e :: SearchVideoId(url).Some? && svc.fetchVideo(url) == Failure(e) ==> r == Crash(e)
    ensures r.status == 200 ==>
              && SearchVideoId(url).Some?
              && svc.fetchVideo(url).Success?
              && var id := SearchVideoId(url).value;
              && TranscriptText(AppClauses, svc.fetchTranscript(id)).Success?
              && r == SuccessReply(svc.fetchVideo(url).value, url, id, TranscriptText(AppClauses, svc.fetchTranscript(id)).value)
  {
    if SearchVideoId(url).None? then JsonReply(400, ErrorObject(InvalidUrlError))
    else
      var id := SearchVideoId(url).value;
      if svc.fetchVideo(url).Failure? then Crash(svc.fetchVideo(url).error)
      else
        var transcript := TranscriptText(AppClauses, svc.fetchTranscript(id));
        if transcript.Failure? then Crash(transcript.error.message)
        else SuccessReply(svc.fetchVideo(url).value, url, id, transcript.value)
  }

  /**
   * `get_youtube_data`. Unlike the routes of api/index.py there is no
   * check of the body before `data.get`, so every decoded body that is not
   * an object, `null` and `[]` included, ends in the outer handler.
   */
  function GetYoutubeData(body: RequestBody, svc: Services): (r: Reply)
    ensures body.NotJson? ==> r == Crash(body.getJsonError)
    ensures body.BadJson? ==> r == Crash(body.error)
    ensures body.JsonBody? && !body.data.JObject? ==> r == Crash(NoGetMessage(body.data))
    ensures body.JsonBody? && body.data.JObject? && !Truthy(Get(body.data.fields, "video_url")) ==>
              r == JsonReply(400, ErrorObject(NoUrlError))
    ensures body.JsonBody? && body.data.JObject? && Truthy(Get(body.data.fields, "video_url")) ==>
              var v := Get(body.data.fields, "video_url");
              r == if v.JStr? then ForUrl(v.s, svc) else Crash(NotStringMessage(v))
    ensures r.payload.JsonPayload? && r.status in {200, 400, 500}
  {
    match body
    case NotJson(e) => Crash(e)
    case BadJson(e) => Crash(e)
    case JsonBody(data) =>
      if !data.JObject? then Crash(NoGetMessage(data))
      else
        var v := Get(data.fields, "video_url");
        if !Truthy(v) then JsonReply(400, ErrorObject(NoUrlError))
        else if !v.JStr? then Crash(NotStringMessage(v))
        else ForUrl(v.s, svc)
  }

  /**
   * Once an identifier is found and pytube answers, the reply is 200 with
   * both `metadata` and `transcript`, whatever the transcript library does.
   */
  lemma FoundVideoAnswers(url: string, svc: Services)
    requires SearchVideoId(url).Some? && svc.fetchVideo(url).Success?
    ensures var r := ForUrl(url, svc);
            && r.status == 200 && r.payload.JsonPayload? && r.payload.json.JObject?
            && "metadata" in r.payload.json.fields && "transcript" in r.payload.json.fields
  {
    AppTranscriptNeverFails(svc.fetchTranscript(SearchVideoId(url).value));
  }

  /** Whatever the transcript library does, the status after the URL is read stays the same. */
  lemma ForUrlIgnoresTranscript(url: string, svc: Services, other: string -> TranscriptOutcome)
    ensures ForUrl(url, svc).status == ForUrl(url, svc.(fetchTranscript := other)).status
  {
    if SearchVideoId(url).Some? {
      var id := SearchVideoId(url).value;
      AppTranscriptNeverFails(svc.fetchTranscript(id));
      AppTranscriptNeverFails(other(id));
    }
  }

  /** Whatever the transcript library does, the route answers with the same status. */
  lemma StatusIgnoresTranscript(body: RequestBody, svc: Services, other: string -> TranscriptOutcome)
    ensures GetYoutubeData(body, svc).status == GetYoutubeData(body, svc.(fetchTranscript := other)).status
  {
    if body.JsonBody? && body.data.JObject? {
      var v := Get(body.data.fields, "video_url");
      if Truthy(v) && v.JStr? {
        ForUrlIgnoresTranscript(v.s, svc, other);
      }
    }
  }

  /**
   * A successful reply echoes the URL as given and names the first eleven
   * identifier characters after `v=` or `/` in it.
   */
  lemma SuccessEchoesInput(url: string, svc: Services)
    requires ForUrl(url, svc).status == 200
    ensures var meta := ForUrl(url, svc).payload.json.fields["metadata"];
            && meta.JObject?
            && meta.fields["video_url"] == JStr(url)
            && meta.fields["video_id"].JStr?
            && IsCanonicalId(meta.fields["video_id"].s)
            && meta.fields["video_id"] == JStr(SearchVideoId(url).value)
  {
  }
}
