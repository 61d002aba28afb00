/**
 * What the handlers make of a transcript fetch: the entry texts joined by
 * single spaces on success, and on failure the text chosen by the first
 * `except` clause that catches the raised exception.
 */
module Transcript {
  import opened Wrappers

  /** The exception classes of the transcript library the handlers name, plus everything else. */
  datatype ErrorKind =
    | TranscriptsDisabled
    | NoTranscriptFound
    | VideoUnavailable
    /** Any other subclass of CouldNotRetrieveTranscript. */
    | OtherRetrievalError
    /** An exception outside the library's hierarchy. */
    | UnrelatedError

  /** A raised exception: its class and `str(e)`. */
  datatype TranscriptError = TranscriptError(kind: ErrorKind, message: string)

  /** The outcome of fetching a transcript: the `text` of each entry, or the exception raised. */
  datatype TranscriptOutcome = Entries(texts: seq<string>) | Raised(error: TranscriptError)

  // ---------------------------------------------------------------------
  // " ".join(...)
  // ---------------------------------------------------------------------

  /** `" ".join(texts)` */
  function JoinWithSpace(texts: seq<string>): string {
    if |texts| == 0 then ""
    else if |texts| == 1 then texts[0]
    else texts[0] + " " + JoinWithSpace(texts[1..])
  }

  function TotalLength(texts: seq<string>): nat {
    if |texts| == 0 then 0 else |texts[0]| + TotalLength(texts[1..])
  }

  /** The joined text is the entries plus exactly one separator between neighbours. */
  lemma {:induction false} JoinLength(texts: seq<string>)
    requires |texts| > 0
    ensures |JoinWithSpace(texts)| == TotalLength(texts) + |texts| - 1
  {
    if |texts| > 1 {
      JoinLength(texts[1..]);
    }
  }

  /** Splits on every space, like Python's `s.split(" ")`. */
  function SplitOnSpace(s: string): (parts: seq<string>)
    ensures |parts| > 0
  {
    if |s| == 0 then [""]
    else if s[0] == ' ' then [""] + SplitOnSpace(s[1..])
    else
      var rest := SplitOnSpace(s[1..]);
      [[s[0]] + rest[0]] + rest[1..]
  }

  predicate NoSpace(t: string) {
    forall i :: 0 <= i < |t| ==> t[i] != ' '
  }

  lemma {:induction false} SplitSpaceFree(t: string, s: string)
    requires NoSpace(t)
    ensures SplitOnSpace(t + " " + s) == [t] + SplitOnSpace(s)
    ensures SplitOnSpace(t) == [t]
    decreases |t|
  {
    if |t| > 0 {
      assert (t + " " + s)[1..] == t[1..] + " " + s;
      SplitSpaceFree(t[1..], s);
      assert [t[0]] + t[1..] == t;
    } else {
      assert t + " " + s == " " + s;
      assert (" " + s)[1..] == s;
    }
  }

  /** Joining entries that hold no space and splitting the result on spaces gives the entries back. */
  lemma {:induction false} SplitJoin(texts: seq<string>)
    requires |texts| > 0
    requires forall i :: 0 <= i < |texts| ==> NoSpace(texts[i])
    ensures SplitOnSpace(JoinWithSpace(texts)) == texts
  {
    if |texts| == 1 {
      SplitSpaceFree(texts[0], "");
    } else {
      SplitJoin(texts[1..]);
      SplitSpaceFree(texts[0], JoinWithSpace(texts[1..]));
      assert [texts[0]] + texts[1..] == texts;
    }
  }

  // ---------------------------------------------------------------------
  // except clauses
  // ---------------------------------------------------------------------

  /** The classes an `except` clause can name. */
  datatype ExceptionClass =
    | TranscriptsDisabledClass
    | NoTranscriptFoundClass
    | VideoUnavailableClass
    | CouldNotRetrieveTranscriptClass
    | ExceptionBaseClass

  /**
   * `isinstance(e, c)`: the three specific errors, like every other
   * retrieval error, derive from CouldNotRetrieveTranscript; everything
   * derives from Exception.
   */
  predicate IsInstance(e: TranscriptError, c: ExceptionClass) {
    match c
    case TranscriptsDisabledClass => e.kind == TranscriptsDisabled
    case NoTranscriptFoundClass => e.kind == NoTranscriptFound
    case VideoUnavailableClass => e.kind == VideoUnavailable
    case CouldNotRetrieveTranscriptClass => e.kind != UnrelatedError
    case ExceptionBaseClass => true
  }

  /** What a clause sets the transcript text to: a fixed text, or a lead followed by `str(e)`. */
  datatype Handler = Fixed(text: string) | Describe(lead: string)

  datatype Clause = Clause(catches: ExceptionClass, handler: Handler)

  function HandlerText(h: Handler, e: TranscriptError): string {
    match h
    case Fixed(t) => t
    case Describe(lead) => lead + e.message
  }

  /** Python tries the clauses top to bottom: the index of the first that catches `e`. */
  function FirstCatching(clauses: seq<Clause>, e: TranscriptError, from: nat): (r: Option<nat>)
    requires from <= |clauses|
    ensures r.Some? ==> from <= r.value < |clauses| && IsInstance(e, clauses[r.value].catches)
    ensures r.Some? ==> forall i :: from <= i < r.value ==> !IsInstance(e, clauses[i].catches)
    ensures r.None? ==> forall i :: from <= i < |clauses| ==> !IsInstance(e, clauses[i].catches)
    decreases |clauses| - from
  {
    if from == |clauses| then None
    else if IsInstance(e, clauses[from].catches) then Some(from)
    else FirstCatching(clauses, e, from + 1)
  }

  /** The transcript text after a `try` guarded by `clauses`; `Failure` when the exception escapes. */
  function TranscriptText(clauses: seq<Clause>, outcome: TranscriptOutcome): Result<string, TranscriptError> {
    match outcome
    case Entries(texts) => Success(JoinWithSpace(texts))
    case Raised(e) =>
      match FirstCatching(clauses, e, 0)
      case None => Failure(e)
      case Some(i) => Success(HandlerText(clauses[i].handler, e))
  }

  /** api/index.py: `except Exception` replaces the transcript by a placeholder. */
  const Placeholder := "Transcript not available."
  const ApiClauses := [Clause(ExceptionBaseClass, Fixed(Placeholder))]

  /** app.py: the specific classes first, then the general retrieval error, then everything else. */
  const DisabledText := "Transcript disabled by the video owner."
  const NotFoundText := "Transcript not found for this video."
  const UnavailableText := "Video is unavailable."
  const RestrictedText := "Could not retrieve transcript. Possibly due to restrictions."
  const OtherLead := "Transcript not available. Error: "
  const AppClauses := [
    Clause(TranscriptsDisabledClass, Fixed(DisabledText)),
    Clause(NoTranscriptFoundClass, Fixed(NotFoundText)),
    Clause(VideoUnavailableClass, Fixed(UnavailableText)),
    Clause(CouldNotRetrieveTranscriptClass, Fixed(RestrictedText)),
    Clause(ExceptionBaseClass, Describe(OtherLead))
  ]

  /** In api/index.py a transcript failure never escapes: every error becomes the placeholder. */
  lemma ApiTranscriptNeverFails(outcome: TranscriptOutcome)
    ensures TranscriptText(ApiClauses, outcome).Success?
    ensures outcome.Raised? ==> TranscriptText(ApiClauses, outcome) == Success(Placeholder)
    ensures outcome.Entries? ==> TranscriptText(ApiClauses, outcome) == Success(JoinWithSpace(outcome.texts))
  {
    if outcome.Raised? {
      assert IsInstance(outcome.error, ApiClauses[0].catches);
    }
  }

  /** In app.py each error kind gets its own fixed text, and nothing escapes. */
  lemma AppTranscriptMessages(e: TranscriptError)
    ensures e.kind == TranscriptsDisabled ==> TranscriptText(AppClauses, Raised(e)) == Success(DisabledText)
    ensures e.kind == NoTranscriptFound ==> TranscriptText(AppClauses, Raised(e)) == Success(NotFoundText)
    ensures e.kind == VideoUnavailable ==> TranscriptText(AppClauses, Raised(e)) == Success(UnavailableText)
    ensures e.kind == OtherRetrievalError ==> TranscriptText(AppClauses, Raised(e)) == Success(RestrictedText)
    ensures e.kind == UnrelatedError ==> TranscriptText(AppClauses, Raised(e)) == Success(OtherLead + e.message)
  {
    var r := FirstCatching(AppClauses, e, 0);
    assert IsInstance(e, AppClauses[4].catches);
    match e.kind {
      case TranscriptsDisabled => assert IsInstance(e, AppClauses[0].catches);
      case NoTranscriptFound => assert IsInstance(e, AppClauses[1].catches);
      case VideoUnavailable => assert IsInstance(e, AppClauses[2].catches);
      case OtherRetrievalError => assert IsInstance(e, AppClauses[3].catches);
      case UnrelatedError =>
    }
  }

  /** In app.py a transcript failure never escapes either: the last clause catches every error. */
  lemma AppTranscriptNeverFails(outcome: TranscriptOutcome)
    ensures TranscriptText(AppClauses, outcome).Success?
  {
    if outcome.Raised? {
      AppTranscriptMessages(outcome.error);
    }
  }

  /**
   * The order of app.py's clauses matters: with the general retrieval
   * clause first, a disabled transcript would get the general text.
   */
  lemma GeneralClauseFirstShadows(message: string)
    ensures TranscriptText([AppClauses[3]] + AppClauses[..3] + [AppClauses[4]],
                           Raised(TranscriptError(TranscriptsDisabled, message)))
         == Success(RestrictedText)
  {
    var reordered := [AppClauses[3]] + AppClauses[..3] + [AppClauses[4]];
    assert IsInstance(TranscriptError(TranscriptsDisabled, message), reordered[0].catches);
  }
}
