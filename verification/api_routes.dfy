/**
 * The two extraction routes of api/index.py, `/api/extract`
 * (`extract_metadata`) and `/api/mindpal/extract` (`mindpal_extract`), as
 * pure functions from the request and the injected upstream services to
 * the reply.
 */
module ApiRoutes {
  import opened Wrappers
  import opened Json
  import opened Http
  import opened VideoId
  import opened Transcript
  import opened VideoMetadata

  /** The services the routes call, as functions of what they are given. */
  datatype Upstream = Upstream(
    /** The Data API request for a video identifier and API key. */
    listVideos: (string, string) -> VideoListing,
    parseDuration: string -> Result<int, string>,
    parseInt: string -> Result<int, string>,
    /** `YouTubeTranscriptApi.get_transcript(video_id)` */
    fetchTranscript: string -> TranscriptOutcome)

  const MissingKeyError := "API key is required in the X-API-Key header"
  const NotJsonError := "Request must be in JSON format"
  const BadJsonLead := "Invalid JSON format: "
  const MissingUrlError := "'youtube_url' is required"
  const MissingInputError := "Input field is required"
  const NoIdError := "Could not extract valid YouTube video ID"

  /** What `not data or not data.get(key)` and the following `data.get(key)` make of a decoded body. */
  datatype Field =
    | Absent
    /** `data` is truthy but has no `get`: the AttributeError escapes. */
    | NotAnObject(data: Json)
    | Present(value: Json)

  function ReadField(data: Json, key: string): (f: Field)
    ensures f.Present? ==> data.JObject? && key in data.fields && f.value == data.fields[key] && Truthy(f.value)
    ensures f.Absent? <==> !Truthy(data) || (data.JObject? && !Truthy(Get(data.fields, key)))
    ensures f.NotAnObject? <==> Truthy(data) && !data.JObject?
  {
    if !Truthy(data) then Absent
    else if !data.JObject? then NotAnObject(data)
    else
      var v := Get(data.fields, key);
      if Truthy(v) then Present(v) else Absent
  }

  /** The URL the route goes on with: a body field holding a non-empty string. */
  predicate CarriesUrl(req: Request, key: string, url: string) {
    req.body.JsonBody? && ReadField(req.body.data, key) == Present(JStr(url))
  }

  /** The body makes `data.get(key)` or `re.match` raise: not an object, or a field that is not a string. */
  predicate FieldRaises(req: Request, key: string) {
    req.body.JsonBody? &&
    match ReadField(req.body.data, key)
    case NotAnObject(_) => true
    case Present(v) => !v.JStr?
    case Absent => false
  }

  /** The metadata the routes look up for an identifier. */
  function LookUp(id: string, key: string, up: Upstream): Result<Metadata, string> {
    GetVideoMetadata(id, up.listVideos(id, key), up.parseDuration, up.parseInt)
  }

  // ---------------------------------------------------------------------
  // /api/extract
  // ---------------------------------------------------------------------

  /** The successful `/api/extract` reply. */
  function ExtractSuccess(m: Metadata, transcript: string): Reply {
    JsonReply(200, JObject(map["metadata" := MetadataJson(m), "transcript" := JStr(transcript)]))
  }

  /** The part of `extract_metadata` that follows a URL read from the body. */
  function ExtractForUrl(url: string, key: string, up: Upstream): (r: Reply)
    ensures r.payload.JsonPayload? && (r.status == 200 || r.status == 400)
    ensures ExtractVideoId(url).None? ==> r == JsonReply(400, ErrorObject(NoIdError))
    ensures forall id, e :: ExtractVideoId(url) == Some(id) && LookUp(id, key, up) == Failure(e) ==>
              r == JsonReply(400, ErrorObject(e))
    ensures r.status == 200 ==>
              && ExtractVideoId(url).Some?
              && var id := ExtractVideoId(url).value;
              && LookUp(id, key, up).Success?
              && TranscriptText(ApiClauses, up.fetchTranscript(id)).Success?
              && r == ExtractSuccess(LookUp(id, key, up).value, TranscriptText(ApiClauses, up.fetchTranscript(id)).value)
  {
    if ExtractVideoId(url).None? then JsonReply(400, ErrorObject(NoIdError))
    else
      var id := ExtractVideoId(url).value;
      var found := LookUp(id, key, up);
      if found.Failure? then JsonReply(400, ErrorObject(found.error))
      else
        var transcript := TranscriptText(ApiClauses, up.fetchTranscript(id));
        // an exception escaping the inner try reaches the outer handler
        if transcript.Failure? then JsonReply(400, ErrorObject(transcript.error.message))
        else ExtractSuccess(found.value, transcript.value)
  }

  /**
   * `extract_metadata`. The checks run in a fixed order: preflight, API
   * key, JSON body, URL field, identifier, metadata. Only a URL field that
   * is not a string, or a body that is not an object, escapes as an
   * uncaught exception.
   */
  function ExtractMetadata(verb: Method, req: Request, up: Upstream): (r: Reply)
    ensures verb == Options ==> r == Reply(200, Text(""))
    ensures verb == Post && !HasApiKey(req) ==> r == JsonReply(401, ErrorObject(MissingKeyError))
    ensures verb == Post && HasApiKey(req) && req.body.NotJson? ==> r == JsonReply(400, ErrorObject(NotJsonError))
    ensures verb == Post && HasApiKey(req) && req.body.BadJson? ==> r == JsonReply(400, ErrorObject(BadJsonLead + req.body.error))
    ensures verb == Post && HasApiKey(req) && req.body.JsonBody? && ReadField(req.body.data, "youtube_url").Absent? ==>
              r == JsonReply(400, ErrorObject(MissingUrlError))
    ensures forall url :: verb == Post && HasApiKey(req) && CarriesUrl(req, "youtube_url", url) ==>
              r == ExtractForUrl(url, req.apiKey.value, up)
    ensures r.payload == UncaughtError <==> verb == Post && HasApiKey(req) && FieldRaises(req, "youtube_url")
    ensures r.payload == UncaughtError <==> r.status == 500
  {
    if verb == Options then Reply(200, Text(""))
    else
      assert verb == Post;
      if !HasApiKey(req) then JsonReply(401, ErrorObject(MissingKeyError))
      else match req.body
        case NotJson(_) => JsonReply(400, ErrorObject(NotJsonError))
        case BadJson(e) => JsonReply(400, ErrorObject(BadJsonLead + e))
        case JsonBody(data) =>
          match ReadField(data, "youtube_url")
          case Absent => JsonReply(400, ErrorObject(MissingUrlError))
          case NotAnObject(_) => Reply(500, UncaughtError)
          case Present(v) =>
            if !v.JStr? then Reply(500, UncaughtError)
            else ExtractForUrl(v.s, req.apiKey.value, up)
  }

  /** Once an identifier is found and its metadata looked up, `/api/extract` answers 200. */
  lemma FoundVideoAnswers(url: string, key: string, up: Upstream)
    requires ExtractVideoId(url).Some? && LookUp(ExtractVideoId(url).value, key, up).Success?
    ensures ExtractForUrl(url, key, up).status == 200
    ensures MindpalForUrl(url, key, up).status == 200
  {
    ApiTranscriptNeverFails(up.fetchTranscript(ExtractVideoId(url).value));
  }

  /** Whatever the transcript service does, the status after the URL is read stays the same. */
  lemma ExtractForUrlIgnoresTranscript(url: string, key: string, up: Upstream, other: string -> TranscriptOutcome)
    ensures ExtractForUrl(url, key, up).status == ExtractForUrl(url, key, up.(fetchTranscript := other)).status
  {
    if ExtractVideoId(url).Some? {
      var id := ExtractVideoId(url).value;
      ApiTranscriptNeverFails(up.fetchTranscript(id));
      ApiTranscriptNeverFails(other(id));
    }
  }

  /** Whatever the transcript service does, `/api/extract` answers with the same status. */
  lemma ExtractStatusIgnoresTranscript(verb: Method, req: Request, up: Upstream, other: string -> TranscriptOutcome)
    ensures ExtractMetadata(verb, req, up).status == ExtractMetadata(verb, req, up.(fetchTranscript := other)).status
  {
    if verb == Post && HasApiKey(req) && req.body.JsonBody? {
      var f := ReadField(req.body.data, "youtube_url");
      if f.Present? && f.value.JStr? {
        ExtractForUrlIgnoresTranscript(f.value.s, req.apiKey.value, up, other);
      }
    }
  }

  /** The transcript of a successful `/api/extract` reply: the joined entries, or the placeholder. */
  lemma ExtractTranscriptField(url: string, key: string, up: Upstream)
    requires ExtractForUrl(url, key, up).status == 200
    ensures var id := ExtractVideoId(url).value;
            var out := up.fetchTranscript(id);
            ExtractForUrl(url, key, up).payload.json.fields["transcript"]
              == JStr(if out.Entries? then JoinWithSpace(out.texts) else Placeholder)
  {
    ApiTranscriptNeverFails(up.fetchTranscript(ExtractVideoId(url).value));
  }

  // ---------------------------------------------------------------------
  // /api/mindpal/extract
  // ---------------------------------------------------------------------

  /** `{"success": False, "error": message}` */
  function MindpalError(message: string): (j: Json)
    ensures j.JObject? && "success" in j.fields && j.fields["success"] == JBool(false)
  {
    JObject(map["error" := JStr(message), "success" := JBool(false)])
  }

  /** The reply `{"success": True, "data": {...}}` around what was extracted from `source`. */
  function MindpalSuccess(m: Metadata, transcript: string, source: string): (r: Reply)
    ensures r.status == 200 && r.payload.JsonPayload? && r.payload.json.JObject?
    ensures "success" in r.payload.json.fields && r.payload.json.fields["success"] == JBool(true)
  {
    JsonReply(200, JObject(map[
      "data" := JObject(map[
        "metadata" := MetadataJson(m),
        "transcript" := JStr(transcript),
        "source" := JStr(source)]),
      "success" := JBool(true)]))
  }

  /** An exception caught by the route's outer handler. */
  function MindpalCrash(message: string): Reply {
    JsonReply(500, MindpalError(message))
  }

  /** The part of `mindpal_extract` that follows a URL read from the body. */
  function MindpalForUrl(url: string, key: string, up: Upstream): (r: Reply)
    ensures ExtractVideoId(url).None? ==> r == JsonReply(400, MindpalError(NoIdError))
    ensures forall id, e :: ExtractVideoId(url) == Some(id) && LookUp(id, key, up) == Failure(e) ==>
              r == JsonReply(400, MindpalError(e))
    ensures r.status == 200 ==>
              && ExtractVideoId(url).Some?
              && var id := ExtractVideoId(url).value;
              && LookUp(id, key, up).Success?
              && TranscriptText(ApiClauses, up.fetchTranscript(id)).Success?
              && r == MindpalSuccess(LookUp(id, key, up).value, TranscriptText(ApiClauses, up.fetchTranscript(id)).value, url)
  {
    if ExtractVideoId(url).None? then JsonReply(400, MindpalError(NoIdError))
    else
      var id := ExtractVideoId(url).value;
      var found := LookUp(id, key, up);
      if found.Failure? then JsonReply(400, MindpalError(found.error))
      else
        var transcript := TranscriptText(ApiClauses, up.fetchTranscript(id));
        if transcript.Failure? then MindpalCrash(transcript.error.message)
        else MindpalSuccess(found.value, transcript.value, url)
  }

  /**
   * `mindpal_extract`. Same ladder in a `{"success": ..., ...}` envelope,
   * but every exception, a malformed JSON body included, ends in the outer
   * handler with status 500.
   */
  function MindpalExtract(req: Request, up: Upstream): (r: Reply)
    ensures !HasApiKey(req) ==> r == JsonReply(401, MindpalError(MissingKeyError))
    ensures HasApiKey(req) && req.body.NotJson? ==> r == JsonReply(400, MindpalError(NotJsonError))
    ensures HasApiKey(req) && req.body.BadJson? ==> r == MindpalCrash(req.body.error)
    ensures HasApiKey(req) && req.body.JsonBody? && ReadField(req.body.data, "input").Absent? ==>
              r == JsonReply(400, MindpalError(MissingInputError))
    ensures HasApiKey(req) && req.body.JsonBody? && Truthy(req.body.data) && !req.body.data.JObject? ==>
              r == MindpalCrash(NoGetMessage(req.body.data))
    ensures HasApiKey(req) && req.body.JsonBody? && ReadField(req.body.data, "input").Present? ==>
              var v := ReadField(req.body.data, "input").value;
              !v.JStr? ==> r == MindpalCrash(NotStringMessage(v))
    ensures forall url :: HasApiKey(req) && CarriesUrl(req, "input", url) ==> r == MindpalForUrl(url, req.apiKey.value, up)
    ensures r.status == 200 ==> exists url :: HasApiKey(req) && CarriesUrl(req, "input", url) && r == MindpalForUrl(url, req.apiKey.value, up)
  {
    if !HasApiKey(req) then JsonReply(401, MindpalError(MissingKeyError))
    else match req.body
      case NotJson(_) => JsonReply(400, MindpalError(NotJsonError))
      case BadJson(e) => MindpalCrash(e)
      case JsonBody(data) =>
        match ReadField(data, "input")
        case Absent => JsonReply(400, MindpalError(MissingInputError))
        case NotAnObject(d) => MindpalCrash(NoGetMessage(d))
        case Present(v) =>
          if !v.JStr? then MindpalCrash(NotStringMessage(v))
          else MindpalForUrl(v.s, req.apiKey.value, up)
  }

  /** After the URL is read, the `success` flag is set exactly when the status is 200. */
  lemma MindpalForUrlEnvelope(url: string, key: string, up: Upstream)
    ensures var r := MindpalForUrl(url, key, up);
            && r.payload.JsonPayload? && r.payload.json.JObject? && "success" in r.payload.json.fields
            && r.payload.json.fields["success"] == JBool(r.status == 200)
  {
  }

  /** Every mindpal reply is a JSON object whose `success` flag is set exactly when the status is 200. */
  lemma MindpalEnvelope(req: Request, up: Upstream)
    ensures var r := MindpalExtract(req, up);
            && r.payload.JsonPayload? && r.payload.json.JObject? && "success" in r.payload.json.fields
            && r.payload.json.fields["success"] == JBool(r.status == 200)
  {
    if HasApiKey(req) && req.body.JsonBody? {
      var f := ReadField(req.body.data, "input");
      if f.Present? && f.value.JStr? {
        MindpalForUrlEnvelope(f.value.s, req.apiKey.value, up);
      }
    }
  }

  /** Whatever the transcript service does, the mindpal status after the URL is read stays the same. */
  lemma MindpalForUrlIgnoresTranscript(url: string, key: string, up: Upstream, other: string -> TranscriptOutcome)
    ensures MindpalForUrl(url, key, up).status == MindpalForUrl(url, key, up.(fetchTranscript := other)).status
  {
    if ExtractVideoId(url).Some? {
      var id := ExtractVideoId(url).value;
      ApiTranscriptNeverFails(up.fetchTranscript(id));
      ApiTranscriptNeverFails(other(id));
    }
  }

  /** Whatever the transcript service does, `/api/mindpal/extract` answers with the same status. */
  lemma MindpalStatusIgnoresTranscript(req: Request, up: Upstream, other: string -> TranscriptOutcome)
    ensures MindpalExtract(req, up).status == MindpalExtract(req, up.(fetchTranscript := other)).status
  {
    if HasApiKey(req) && req.body.JsonBody? {
      var f := ReadField(req.body.data, "input");
      if f.Present? && f.value.JStr? {
        MindpalForUrlIgnoresTranscript(f.value.s, req.apiKey.value, up, other);
      }
    }
  }
}
