# youtube_api in Dafny

A model of the request-handling core of the `youtube_api` Flask service. The
service takes a YouTube URL, reads the video identifier off it, looks up the
video's metadata and transcript, and answers with a JSON object. Two
independent implementations live in the repository:

- `api/index.py` has the `/api/extract` and `/api/mindpal/extract` routes.
  They use `extract_video_id`, an anchored `re.match` with a six-group
  pattern, plus a metadata lookup against the YouTube Data API and a
  transcript that falls back to a placeholder.
- `app.py` has the `/get_youtube_data` route. It uses an unanchored
  `re.search`, pytube metadata, and a transcript whose failures map to one
  message per exception class.

Everything here is pure. Each route is a function from an abstract request
and the injected outcomes of the services it calls to a `(status, payload)`
reply. Network replies, pytube, the transcript library, `isodate` and
Python's `int()` are function-typed parameters.

Modules, in dependency order:

- `Wrappers`: `Option` and `Result`.
- `Json`: JSON values with Python truthiness, `dict.get`, and the text of
  the two `TypeError`/`AttributeError` messages the routes can produce.
- `Http`: the request (API key header, decoded or undecodable body) and the
  reply.
- `IdAlphabet`: the identifier alphabet `[0-9A-Za-z_-]` and the length 11.
- `VideoId`: `extract_video_id`. It pairs a declarative predicate, "the
  regex matches with this group 6" (prefix path, lead-in alternative,
  backtracking priority), with a deterministic scan. The two are proved
  equal.
- `SearchId`: the `re.search` extractor of `app.py`, as a leftmost-position
  scan.
- `Transcript`: joining the entries with single spaces, and Python's
  first-matching `except` clause over the transcript library's exception
  hierarchy.
- `VideoMetadata`: the field mapping of `get_video_metadata` and the pytube
  metadata object of `app.py`.
- `ApiRoutes`: the two decision ladders of `api/index.py`.
- `AppRoute`: the decision ladder of `app.py`.

Some behaviours that follow from the code are stated as lemmas:
- The token class of `extract_video_id` admits `/`, so a `/shorts/ID` path
  yields `shorts/` plus four identifier characters.
- A bare `youtu.be/ID` loses to a later `?v=` and token.
- `re.search` in `app.py` reads `youtube-noc` off any
  `https://youtube-nocookie.com/...` URL, because the second slash of the
  scheme is followed by eleven identifier characters.

Two facts about the code are easy to miss:
- `extract_video_id` accepts any eleven characters other than `&`, `=`,
  `%` and `?`, and its pattern has no end anchor, so a longer token is cut
  to its first eleven characters.
- The outer handler of `/api/extract` answers 400, not 500, for an
  exception raised after the identifier is found.

## Model

| member | source | states |
|---|---|---|
| VideoId.ExtractVideoId | api/index.py:22-32 | a returned identifier is eleven characters, none of them `&`, `=`, `%` or `?`, occurs contiguously in the URL, and is only returned when the URL begins with one of the prefix paths |
| VideoId.MatchPrefix | api/index.py:25-26 | the prefix read off the URL is an actual leading part of it |
| VideoId.LineEnd | api/index.py:27 | `.+` can reach exactly the characters before the first newline |
| VideoId.LastQueryV | api/index.py:27 | the chosen length for `.+` is the longest one followed by `?v=` and a token, and no longer one fits |
| VideoId.MatchLeadIn | api/index.py:27 | the lead-in chosen fits, and no lead-in the regex tries earlier fits; none is chosen only when no alternative fits |
| VideoId.PrefixUnique | api/index.py:25-26 | at most one path through the prefix groups fits a URL, so the prefix has no backtracking |
| VideoId.ExtractIsRegexMatch | api/index.py:24-31 | the scan returns `id` exactly when the pattern matches at the start with group 6 equal to `id` under Python's backtracking order |
| VideoId.ExtractNoneIffNoMatch | api/index.py:29-32 | `None` is returned exactly when no path through the pattern matches |
| VideoId.ExtractAfterPrefix | api/index.py:24-29 | once a prefix path fits, only the text after it decides the result |
| VideoId.LeadInFormsIgnoreTail | api/index.py:27-31 | `watch?v=`, `embed/` or `v/` followed by a token return that token, whatever text follows it |
| VideoId.WatchUrlForm | api/index.py:27-31 | the `watch?v=` URL on any prefix path returns its token |
| VideoId.BareFormIgnoresTail | api/index.py:27-31 | a bare canonical identifier after the prefix is returned when no `?` follows it |
| VideoId.SameIdAcrossShapes | api/index.py:24-31 | `watch?v=ID`, `embed/ID`, `v/ID` and `youtu.be/ID` all return the same `ID` |
| VideoId.LeadingTextRejected | api/index.py:24-29 | matching is anchored and case-sensitive: a URL starting with anything but `h`, `w` or `y` yields nothing |
| VideoId.BareTokenLosesToLaterQueryV | api/index.py:27 | a bare token is tried last, so a later `?v=` with a token takes priority over it |
| VideoId.LastQueryVWins | api/index.py:27 | with two `?v=` followed by tokens, the greedy `.+` makes the last one win |
| VideoId.NewlineStopsRun | api/index.py:27 | `.` does not cross a newline, so a `?v=` on the next line is not found and nothing is returned |
| VideoId.ShortsPathYieldsPathText | api/index.py:27 | the token class admits `/`, so a `shorts/ID` path returns `shorts/` and the first four identifier characters |
| SearchId.LeftmostMatch | app.py:30 | the position found is the leftmost at or after the start where `v=` or `/` is followed by eleven identifier characters |
| SearchId.SearchVideoId | app.py:30-33 | nothing is returned exactly when no position matches; otherwise the result is the eleven characters after the leftmost match and lies in the identifier alphabet |
| SearchId.LeftmostDecides | app.py:30-33 | a match with none to its left fixes the result |
| SearchId.NoHostCheck | app.py:30-31 | any text followed by `v=` or `/` and an identifier yields an identifier, whatever the host |
| SearchId.LongTokenTruncated | app.py:30-33 | an identifier-character token longer than eleven is accepted and cut to its first eleven |
| SearchId.NoCookieHostMisread | app.py:30-33 | on `https://youtube-nocookie.com/...` the result is `youtube-noc`, whatever the path |
| Transcript.JoinLength | app.py:53 | the joined transcript is as long as the entries plus one space between each pair |
| Transcript.SplitJoin | app.py:53 | joining space-free entries with single spaces loses nothing: splitting on spaces returns them |
| Transcript.FirstCatching | app.py:49-63 | the clause chosen is the first whose class the exception is an instance of |
| Transcript.ApiTranscriptNeverFails | api/index.py:82-89 | in `api/index.py` no transcript failure escapes: it becomes `Transcript not available.`; entries are joined by single spaces |
| Transcript.AppTranscriptMessages | app.py:54-63 | each exception class gets its own message, the specific classes before the general retrieval error; any other error gives the lead text plus its message |
| Transcript.AppTranscriptNeverFails | app.py:49-63 | in `app.py` no transcript failure escapes the inner `try` |
| Transcript.GeneralClauseFirstShadows | app.py:54-61 | the clause order matters: with the general retrieval clause first, a disabled transcript would get the general message |
| VideoMetadata.GetVideoMetadata | api/index.py:128-162 | a failed request and an empty item list give their errors; otherwise a failed duration or view-count parse gives the processing error, and when both parse a record is always built; the record carries the parsed duration, the parsed view count or 0 when absent, each snippet field or its placeholder when absent, and the watch URL of the identifier |
| VideoMetadata.SnippetDefaults | api/index.py:131-149 | a snippet field present in the reply is copied, and a missing one gets its placeholder text |
| VideoMetadata.WatchUrlPrefixText | api/index.py:145 | the watch URL prefix `https://www.youtube.com/watch?v=` is the `https`, `www.`, `youtube.com` path through the extractor's prefix groups followed by the `watch?v=` lead-in |
| VideoMetadata.WatchUrlReturnsToken | api/index.py:145 | extracting from the watch URL of any token returns that token |
| VideoMetadata.WatchUrlRoundTrip | api/index.py:145 | the `video_url` built for an extracted identifier leads back to the same identifier |
| ApiRoutes.ReadField | api/index.py:60-64 | a field is present only when the body is an object holding a truthy value under the key; it is absent exactly when the body or the value is falsy; a truthy non-object body raises |
| ApiRoutes.ExtractForUrl | api/index.py:67-103 | the reply is always JSON with status 200 or 400; no identifier gives 400, a metadata error gives 400 with its message, and 200 only carries the looked-up metadata and the transcript text |
| ApiRoutes.ExtractMetadata | api/index.py:35-103 | the checks run in order (preflight, API key, JSON body, URL field, identifier, metadata); only a non-object body or a non-string URL escapes, as status 500 |
| ApiRoutes.FoundVideoAnswers | api/index.py:74-98 | once the identifier and its metadata are found, both routes answer 200 |
| ApiRoutes.ExtractTranscriptField | api/index.py:82-95 | the transcript of a 200 reply is the joined entries, or the placeholder when the fetch raised |
| ApiRoutes.ExtractForUrlIgnoresTranscript | api/index.py:82-89 | after the URL is read, the transcript outcome never changes the status |
| ApiRoutes.ExtractStatusIgnoresTranscript | api/index.py:74-103 | the transcript outcome never changes the status of `/api/extract` |
| ApiRoutes.MindpalForUrl | api/index.py:190-217 | no identifier gives 400, a metadata error gives 400 with its message, and 200 carries metadata, transcript and the source URL |
| ApiRoutes.MindpalExtract | api/index.py:169-222 | the key is checked first, then the JSON body and the `input` field; an undecodable body, a truthy non-object body (the `AttributeError` of `data.get`) and a non-string `input` (the `TypeError` of `re.match`) each end in the outer handler with status 500 and that exception's text |
| ApiRoutes.MindpalForUrlEnvelope | api/index.py:190-222 | after the URL is read, every reply is an object whose `success` flag holds exactly when the status is 200 |
| ApiRoutes.MindpalEnvelope | api/index.py:169-222 | every mindpal reply is an object whose `success` flag holds exactly when the status is 200 |
| ApiRoutes.MindpalForUrlIgnoresTranscript | api/index.py:200-205 | after the URL is read, the transcript outcome never changes the status |
| ApiRoutes.MindpalStatusIgnoresTranscript | api/index.py:169-222 | the transcript outcome never changes the status of the mindpal route |
| AppRoute.ForUrl | app.py:30-68 | no identifier gives 400 `Invalid YouTube URL.`; a pytube failure gives 500; 200 carries pytube's metadata with the raw URL and the found identifier, and the transcript text |
| AppRoute.GetYoutubeData | app.py:21-71 | an undecodable or non-object body gives 500 with the exception text; a falsy `video_url` gives 400 before the regex runs; a non-string one gives 500; the status is always 200, 400 or 500 |
| AppRoute.FoundVideoAnswers | app.py:49-68 | once an identifier is found and pytube answers, the reply is 200 with both `metadata` and `transcript`, whatever the transcript library does |
| AppRoute.ForUrlIgnoresTranscript | app.py:49-68 | after the URL is read, the transcript outcome never changes the status |
| AppRoute.StatusIgnoresTranscript | app.py:21-71 | the transcript outcome never changes the status of the route |
| AppRoute.SuccessEchoesInput | app.py:37-45 | a 200 reply's `video_url` is the raw input URL and its `video_id` is the identifier the search found, in the identifier alphabet |

## Left out

- Flask routing, CORS, the `/` home route of `app.py`, the `/api/debug` endpoint and the Vercel handler (api/index.py:224-302). None of these take part in the decisions modelled.
- The second verbatim copy of the module in api/index.py:303-605. It duplicates lines 1-302.
- Logging (`log_info`, `log_error`, `traceback`): it has no effect on replies.
- The HTTP request to the YouTube Data API, `raise_for_status` and `response.json()`. They become an injected `VideoListing`, in which `RequestFailed` carries the text of the `RequestException`.
- pytube's `YouTube(url)` and its attribute reads. They become one injected `Result`.
- The transcript library, including `app.py`'s language preference `['en', 'en-US', 'en-GB']`. It becomes an injected outcome: entries, or an exception of a known class with its text.
- `isodate.parse_duration` with `int(... .total_seconds())`, and Python's `int()` on `viewCount`. Both are injected partial parsers, since neither library is part of this model.
- `request.is_json` and `request.get_json()`. The body is already classified as not JSON, undecodable (with the exception text) or decoded. In `app.py` the exception text of a non-JSON body depends on the Flask version and is a parameter.
- JSON numbers other than integers. `Json` has no floats.
- Flask's own handling of `OPTIONS` for `/api/mindpal/extract` and `/get_youtube_data`, and the body of Flask's error page for an exception that escapes `extract_metadata` (modelled as `UncaughtError` with status 500).
- VideoMetadata.GetVideoMetadata: takes the API reply already split into string-valued maps, so only replies whose fields are strings are modelled. A `null` part such as `"snippet": null` makes `.get` raise `AttributeError`, caught by the handler at lines 160-162. A `null` `viewCount` makes `int(None)` at line 150 raise `TypeError`, and a non-string `duration` makes `isodate.parse_duration` at line 140 raise `TypeError`; both reach the final handler at lines 163-165, whose message starts `Error retrieving video metadata: `, and that handler is not modelled. A snippet value that is not a string raises nothing at lines 146-149 and is copied into the record unchanged, while the model types it as a string.
- The wording of Python's `TypeError` and `AttributeError` messages follows CPython 3; other versions word them differently.
- The API key header is modelled as an optional string; header-name case-insensitivity is Flask's.
