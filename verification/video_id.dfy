/**
 * `extract_video_id` of api/index.py: `re.match` of
 *
 *   (https?://)?(www\.)?(youtube|youtu|youtube-nocookie)\.(com|be)/
 *   (watch\?v=|embed/|v/|.+\?v=)?([^&=%\?]{11})
 *
 * returning group 6. `re.match` anchors at the start of the URL but not at
 * its end. The model has two halves: `RegexMatch`, which says when the
 * backtracking engine reports a match with a given group 6, and
 * `ExtractVideoId`, a deterministic scan proved equal to it.
 */
module VideoId {
  import opened Wrappers
  import opened IdAlphabet

  /** `[^&=%\?]`: every character but these four, newline included. */
  predicate IsTokenChar(c: char) {
    c != '&' && c != '=' && c != '%' && c != '?'
  }

  /** A token of eleven token characters. */
  predicate IsToken(id: string) {
    |id| == IdLength && forall i :: 0 <= i < |id| ==> IsTokenChar(id[i])
  }

  /** The eleven characters starting at offset `i`. */
  function Window(s: string, i: nat): string
    requires i + IdLength <= |s|
  {
    s[i..i + IdLength]
  }

  /** Eleven token characters start at offset `i` of `s`. */
  predicate TokenAt(s: string, i: nat) {
    i + IdLength <= |s| && forall j :: i <= j < i + IdLength ==> IsTokenChar(s[j])
  }

  // ---------------------------------------------------------------------
  // The fixed prefix: groups 1 to 4 and the slash
  // ---------------------------------------------------------------------

  datatype Scheme = NoScheme | Http | Https
  datatype Host = YouTube | YouTu | YouTubeNoCookie
  datatype Tld = Com | Be

  /** One way through `(https?://)?(www\.)?(youtube|youtu|youtube-nocookie)\.(com|be)/`. */
  datatype Prefix = Prefix(scheme: Scheme, www: bool, host: Host, tld: Tld)

  function SchemeText(s: Scheme): string {
    match s
    case NoScheme => ""
    case Http => "http://"
    case Https => "https://"
  }

  function WwwText(www: bool): string {
    if www then "www." else ""
  }

  function HostText(h: Host): string {
    match h
    case YouTube => "youtube"
    case YouTu => "youtu"
    case YouTubeNoCookie => "youtube-nocookie"
  }

  function TldText(t: Tld): string {
    match t
    case Com => "com"
    case Be => "be"
  }

  /** Everything after the scheme. */
  function SiteText(p: Prefix): string {
    WwwText(p.www) + (HostText(p.host) + ("." + (TldText(p.tld) + "/")))
  }

  /** The text the prefix part of the pattern consumes along path `p`. */
  function PrefixText(p: Prefix): string {
    SchemeText(p.scheme) + SiteText(p)
  }

  // ---------------------------------------------------------------------
  // Group 5, the optional lead-in, and group 6
  // ---------------------------------------------------------------------

  /** One way through `(watch\?v=|embed/|v/|.+\?v=)?`; `AnyThenV(k)` lets `.+` take `k` characters. */
  datatype LeadIn = WatchV | Embed | VSlash | AnyThenV(k: nat) | NoLeadIn

  /** `rest` begins with the text lead-in `l` consumes. `.` does not match a newline. */
  predicate LeadInAt(rest: string, l: LeadIn) {
    match l
    case WatchV => "watch?v=" <= rest
    case Embed => "embed/" <= rest
    case VSlash => "v/" <= rest
    case AnyThenV(k) =>
      && 1 <= k
      && k + 3 <= |rest|
      && (forall j :: 0 <= j < k ==> rest[j] != '\n')
      && rest[k..k + 3] == "?v="
    case NoLeadIn => true
  }

  function LeadInLength(l: LeadIn): nat {
    match l
    case WatchV => 8
    case Embed => 6
    case VSlash => 2
    case AnyThenV(k) => k + 3
    case NoLeadIn => 0
  }

  /** Lead-in `l` and then group 6 match at the start of `rest`. */
  predicate LeadInMatches(rest: string, l: LeadIn) {
    LeadInAt(rest, l) && TokenAt(rest, LeadInLength(l))
  }

  /** The pattern matches at the start of `url` along prefix path `p` and lead-in `l`. */
  predicate MatchVia(url: string, p: Prefix, l: LeadIn) {
    PrefixText(p) <= url && LeadInMatches(url[|PrefixText(p)|..], l)
  }

  /** Group 6 of a match along `p` and `l`. */
  function Group6(url: string, p: Prefix, l: LeadIn): string
    requires MatchVia(url, p, l)
  {
    var rest := url[|PrefixText(p)|..];
    rest[LeadInLength(l)..LeadInLength(l) + IdLength]
  }

  /**
   * Position of a lead-in in the order the backtracking engine tries them:
   * the greedy optional group first tries its alternatives left to right,
   * then the empty lead-in.
   */
  function Rank(l: LeadIn): nat {
    match l
    case WatchV => 0
    case Embed => 1
    case VSlash => 2
    case AnyThenV(_) => 3
    case NoLeadIn => 4
  }

  /** `a` is attempted before `b`; the greedy `.+` tries longer runs first. */
  predicate TriedBefore(a: LeadIn, b: LeadIn) {
    Rank(a) < Rank(b) || (a.AnyThenV? && b.AnyThenV? && a.k > b.k)
  }

  /**
   * `re.match` succeeds on `url` with group 6 equal to `id`: some path
   * matches, yields `id`, and no lead-in tried earlier matches.
   */
  ghost predicate RegexMatch(url: string, id: string) {
    exists p, l ::
      && MatchVia(url, p, l)
      && Group6(url, p, l) == id
      && forall l' :: TriedBefore(l', l) ==> !MatchVia(url, p, l')
  }

  // ---------------------------------------------------------------------
  // The deterministic scan
  // ---------------------------------------------------------------------

  function SchemeOf(url: string): Scheme {
    if "https://" <= url then Https else if "http://" <= url then Http else NoScheme
  }

  function HostOf(s: string): (r: Option<Host>)
    ensures r.Some? ==> HostText(r.value) + "." <= s
  {
    if "youtube." <= s then Some(YouTube)
    else if "youtu." <= s then Some(YouTu)
    else if "youtube-nocookie." <= s then Some(YouTubeNoCookie)
    else None
  }

  /** Reads `(com|be)/` off the front of `s`. */
  function MatchTld(s: string): (r: Option<Tld>)
    ensures r.Some? ==> TldText(r.value) + "/" <= s
  {
    if "com/" <= s then Some(Com) else if "be/" <= s then Some(Be) else None
  }

  /** Reads `(youtube|youtu|youtube-nocookie)\.(com|be)/` off the front of `s`. */
  function MatchHost(s: string): (r: Option<(Host, Tld)>)
    ensures r.Some? ==> HostText(r.value.0) + ("." + (TldText(r.value.1) + "/")) <= s
  {
    match HostOf(s)
    case None => None
    case Some(host) =>
      var u := s[|HostText(host)| + 1..];
      match MatchTld(u)
      case None => None
      case Some(tld) =>
        PrefixConcat(HostText(host) + ".", s, TldText(tld) + "/");
        Some((host, tld))
  }

  /** Reads `(www\.)?` and the host part off the front of `s`. */
  function MatchSite(s: string): (r: Option<(bool, Host, Tld)>)
    ensures r.Some? ==> WwwText(r.value.0) + (HostText(r.value.1) + ("." + (TldText(r.value.2) + "/"))) <= s
  {
    var www := "www." <= s;
    var u := s[|WwwText(www)|..];
    match MatchHost(u)
    case None => None
    case Some(ht) =>
      PrefixConcat(WwwText(www), s, HostText(ht.0) + ("." + (TldText(ht.1) + "/")));
      Some((www, ht.0, ht.1))
  }

  /** Reads the prefix off the front of `url`, one component at a time. */
  function MatchPrefix(url: string): (r: Option<Prefix>)
    ensures r.Some? ==> PrefixText(r.value) <= url
  {
    var scheme := SchemeOf(url);
    match MatchSite(url[|SchemeText(scheme)|..])
    case None => None
    case Some(site) =>
      var p := Prefix(scheme, site.0, site.1, site.2);
      PrefixConcat(SchemeText(scheme), url, SiteText(p));
      Some(p)
  }

  /** Index of the first newline of `s`, or `|s|`: how far `.+` can reach. */
  function LineEnd(s: string): (n: nat)
    ensures n <= |s|
    ensures forall j :: 0 <= j < n ==> s[j] != '\n'
    ensures n < |s| ==> s[n] == '\n'
  {
    if |s| == 0 || s[0] == '\n' then 0 else 1 + LineEnd(s[1..])
  }

  /** `\?v=` followed by group 6 at offset `k`. */
  predicate QueryVAt(rest: string, k: nat) {
    k + 3 <= |rest| && rest[k..k + 3] == "?v=" && TokenAt(rest, k + 3)
  }

  /** Backtracking of `.+\?v=`: the longest run of at most `k` characters that is followed by `?v=` and a token. */
  function LastQueryV(rest: string, k: nat): (r: Option<nat>)
    ensures r.Some? ==> 1 <= r.value <= k && QueryVAt(rest, r.value)
    ensures r.Some? ==> forall j :: r.value < j <= k ==> !QueryVAt(rest, j)
    ensures r.None? ==> forall j :: 1 <= j <= k ==> !QueryVAt(rest, j)
  {
    if k == 0 then None
    else if QueryVAt(rest, k) then Some(k)
    else LastQueryV(rest, k - 1)
  }

  /** Tries the lead-ins in backtracking order on what follows the prefix. */
  function MatchLeadIn(rest: string): (r: Option<LeadIn>)
    ensures r.Some? ==> LeadInMatches(rest, r.value)
    ensures r.Some? ==> forall l :: TriedBefore(l, r.value) ==> !LeadInMatches(rest, l)
    ensures r.None? ==> forall l :: !LeadInMatches(rest, l)
  {
    NewlineBoundsRun(rest);
    if LeadInMatches(rest, WatchV) then Some(WatchV)
    else if LeadInMatches(rest, Embed) then Some(Embed)
    else if LeadInMatches(rest, VSlash) then Some(VSlash)
    else match LastQueryV(rest, LineEnd(rest))
      case Some(k) => Some(AnyThenV(k))
      case None => if LeadInMatches(rest, NoLeadIn) then Some(NoLeadIn) else None
  }

  /** Group 6 of the first lead-in that matches after the prefix. */
  function TokenAfterPrefix(rest: string): (r: Option<string>)
    ensures r.Some? ==> exists n: nat :: n + IdLength <= |rest| && Window(rest, n) == r.value
    ensures r.Some? ==> IsToken(r.value)
  {
    match MatchLeadIn(rest)
    case None => None
    case Some(l) =>
      var n := LeadInLength(l);
      Some(Window(rest, n))
  }

  /** The `extract_video_id` of api/index.py. */
  function ExtractVideoId(url: string): (r: Option<string>)
    ensures r.Some? ==> exists p :: PrefixText(p) <= url
    ensures r.Some? ==> IsToken(r.value)
    ensures r.Some? ==> exists i: nat :: i + IdLength <= |url| && Window(url, i) == r.value
  {
    match MatchPrefix(url)
    case None => None
    case Some(p) =>
      var a := |PrefixText(p)|;
      var r := TokenAfterPrefix(url[a..]);
      if r.Some? then
        var n: nat :| n + IdLength <= |url[a..]| && Window(url[a..], n) == r.value;
        SuffixWindow(url, a, n);
        r
      else r
  }

  // ---------------------------------------------------------------------
  // Helper facts
  // ---------------------------------------------------------------------

  lemma PrefixConcat(a: string, s: string, b: string)
    requires a <= s && b <= s[|a|..]
    ensures a + b <= s
  {
    assert (a + b) == s[..|a| + |b|];
  }

  lemma SuffixWindow(s: string, a: nat, n: nat)
    requires a <= |s| && n + IdLength <= |s| - a
    ensures a + n + IdLength <= |s| && Window(s, a + n) == Window(s[a..], n)
  {
  }

  /** The run of `.+` may take `k` characters exactly when none of them is a newline. */
  lemma NewlineBoundsRun(rest: string)
    ensures forall k: nat :: LeadInMatches(rest, AnyThenV(k)) <==> 1 <= k <= LineEnd(rest) && QueryVAt(rest, k)
  {
    var n := LineEnd(rest);
    forall k: nat | LeadInAt(rest, AnyThenV(k))
      ensures k <= n
    {
    }
  }

  // ---------------------------------------------------------------------
  // The scan is the regex
  // ---------------------------------------------------------------------

  lemma SchemeOfFinds(url: string, p: Prefix)
    requires PrefixText(p) <= url
    ensures SchemeOf(url) == p.scheme
  {
    var t := PrefixText(p);
    assert url[..|t|] == t;
    assert url[0] == t[0];
    if p.scheme == Http {
      assert url[4] == ':';
    }
  }

  lemma MatchTldFinds(s: string, t: Tld)
    requires TldText(t) + "/" <= s
    ensures MatchTld(s) == Some(t)
  {
    assert s[0] == (TldText(t) + "/")[0];
  }

  lemma HostOfFinds(s: string, h: Host)
    requires HostText(h) + "." <= s
    ensures HostOf(s) == Some(h)
  {
    var txt := HostText(h) + ".";
    assert s[..|txt|] == txt;
    match h {
      case YouTube =>
      case YouTu =>
        assert s[5] == '.';
      case YouTubeNoCookie =>
        assert s[5] == 'b' && s[7] == '-';
    }
  }

  lemma MatchHostFinds(s: string, h: Host, t: Tld)
    requires HostText(h) + ("." + (TldText(t) + "/")) <= s
    ensures MatchHost(s) == Some((h, t))
  {
    var txt := HostText(h) + ("." + (TldText(t) + "/"));
    assert s[..|txt|] == txt;
    assert HostText(h) + "." <= s by {
      assert s[..|HostText(h)| + 1] == txt[..|HostText(h)| + 1];
    }
    HostOfFinds(s, h);
    var u := s[|HostText(h)| + 1..];
    assert TldText(t) + "/" <= u by {
      assert u[..|TldText(t)| + 1] == txt[|HostText(h)| + 1..];
    }
    MatchTldFinds(u, t);
  }

  lemma MatchSiteFinds(s: string, p: Prefix)
    requires SiteText(p) <= s
    ensures MatchSite(s) == Some((p.www, p.host, p.tld))
  {
    var txt := SiteText(p);
    var rest := HostText(p.host) + ("." + (TldText(p.tld) + "/"));
    assert s[..|txt|] == txt;
    if !p.www {
      assert s[0] == 'y';
    }
    var u := s[|WwwText(p.www)|..];
    assert rest <= u by {
      assert u[..|rest|] == txt[|WwwText(p.www)|..];
    }
    MatchHostFinds(u, p.host, p.tld);
  }

  /** Whenever some path through the prefix fits, the scan finds exactly that path. */
  lemma MatchPrefixFinds(url: string, p: Prefix)
    requires PrefixText(p) <= url
    ensures MatchPrefix(url) == Some(p)
  {
    SchemeOfFinds(url, p);
    var u := url[|SchemeText(p.scheme)|..];
    assert SiteText(p) <= u by {
      assert u[..|SiteText(p)|] == PrefixText(p)[|SchemeText(p.scheme)|..];
    }
    MatchSiteFinds(u, p);
  }

  /** The prefix has no real choice point: at most one path through it fits a URL. */
  lemma PrefixUnique(url: string, p: Prefix, q: Prefix)
    requires PrefixText(p) <= url && PrefixText(q) <= url
    ensures p == q
  {
    MatchPrefixFinds(url, p);
    MatchPrefixFinds(url, q);
  }

  lemma TriedBeforeTotal(a: LeadIn, b: LeadIn)
    ensures a == b || TriedBefore(a, b) || TriedBefore(b, a)
  {
  }

  /** The scan returns `id` exactly when `re.match` reports a match whose group 6 is `id`. */
  lemma ExtractIsRegexMatch(url: string, id: string)
    ensures ExtractVideoId(url) == Some(id) <==> RegexMatch(url, id)
  {
    if ExtractVideoId(url) == Some(id) {
      var p := MatchPrefix(url).value;
      var rest := url[|PrefixText(p)|..];
      var l := MatchLeadIn(rest).value;
      assert MatchVia(url, p, l) && Group6(url, p, l) == id;
      forall l' | TriedBefore(l', l)
        ensures !MatchVia(url, p, l')
      {
      }
    }
    if RegexMatch(url, id) {
      var p, l :| && MatchVia(url, p, l)
                  && Group6(url, p, l) == id
                  && forall l' :: TriedBefore(l', l) ==> !MatchVia(url, p, l');
      MatchPrefixFinds(url, p);
      var rest := url[|PrefixText(p)|..];
      var l2 := MatchLeadIn(rest).value;
      TriedBeforeTotal(l, l2);
      assert MatchVia(url, p, l2);
    }
  }

  /** The scan fails exactly when no path through the pattern matches. */
  lemma ExtractNoneIffNoMatch(url: string)
    ensures ExtractVideoId(url).None? <==> forall p, l :: !MatchVia(url, p, l)
  {
    if ExtractVideoId(url).None? {
      forall p, l | MatchVia(url, p, l)
        ensures false
      {
        MatchPrefixFinds(url, p);
      }
    } else {
      var p := MatchPrefix(url).value;
      var l := MatchLeadIn(url[|PrefixText(p)|..]).value;
      assert MatchVia(url, p, l);
    }
  }

  // ---------------------------------------------------------------------
  // URL shapes
  // ---------------------------------------------------------------------

  /** Once a prefix path fits, only what follows it decides the result. */
  lemma ExtractAfterPrefix(p: Prefix, rest: string)
    ensures ExtractVideoId(PrefixText(p) + rest) == TokenAfterPrefix(rest)
  {
    var url := PrefixText(p) + rest;
    MatchPrefixFinds(url, p);
    assert url[|PrefixText(p)|..] == rest;
  }

  lemma WatchForm(rest: string)
    requires LeadInMatches(rest, WatchV)
    ensures TokenAfterPrefix(rest) == Some(Window(rest, 8))
  {
  }

  lemma EmbedForm(rest: string)
    requires LeadInMatches(rest, Embed)
    ensures TokenAfterPrefix(rest) == Some(Window(rest, 6))
  {
    assert rest[0] == 'e';
  }

  lemma VSlashForm(rest: string)
    requires LeadInMatches(rest, VSlash)
    ensures TokenAfterPrefix(rest) == Some(Window(rest, 2))
  {
    assert rest[0] == 'v';
  }

  /** What follows a lead-in and its token. */
  lemma TokenAfterLead(lead: string, id: string, tail: string)
    requires IsToken(id)
    ensures TokenAt(lead + id + tail, |lead|)
    ensures Window(lead + id + tail, |lead|) == id
  {
    var s := lead + id + tail;
    assert forall j :: |lead| <= j < |lead| + IdLength ==> s[j] == id[j - |lead|];
    assert s[|lead|..|lead| + IdLength] == id;
  }

  /**
   * `watch?v=`, `embed/` and `v/` followed by a token return that token
   * on every prefix path, whatever text comes after it.
   */
  lemma LeadInFormsIgnoreTail(p: Prefix, id: string, tail: string)
    requires IsToken(id)
    ensures ExtractVideoId(PrefixText(p) + ("watch?v=" + id + tail)) == Some(id)
    ensures ExtractVideoId(PrefixText(p) + ("embed/" + id + tail)) == Some(id)
    ensures ExtractVideoId(PrefixText(p) + ("v/" + id + tail)) == Some(id)
  {
    var w := "watch?v=" + id + tail;
    TokenAfterLead("watch?v=", id, tail);
    assert "watch?v=" <= w;
    WatchForm(w);
    ExtractAfterPrefix(p, w);
    var e := "embed/" + id + tail;
    TokenAfterLead("embed/", id, tail);
    assert "embed/" <= e;
    EmbedForm(e);
    ExtractAfterPrefix(p, e);
    var v := "v/" + id + tail;
    TokenAfterLead("v/", id, tail);
    assert "v/" <= v;
    VSlashForm(v);
    ExtractAfterPrefix(p, v);
  }

  /** The canonical watch URL on any prefix path returns its token. */
  lemma WatchUrlForm(p: Prefix, id: string)
    requires IsToken(id)
    ensures ExtractVideoId((PrefixText(p) + "watch?v=") + id) == Some(id)
  {
    LeadInFormsIgnoreTail(p, id, "");
    assert "watch?v=" + id + "" == "watch?v=" + id;
    assert PrefixText(p) + ("watch?v=" + id) == (PrefixText(p) + "watch?v=") + id;
  }

  /** No `?v=` followed by a token occurs after the first character of `rest`. */
  lemma NoQueryVWithoutQuestionMark(rest: string)
    requires forall i :: 1 <= i < |rest| ==> rest[i] != '?'
    ensures LastQueryV(rest, LineEnd(rest)).None?
  {

  }

  /**
   * A bare canonical identifier right after the prefix (`youtu.be/ID`) is
   * returned when the text after it holds no `?`; otherwise a later
   * `?v=` can take priority (see `BareTokenLosesToLaterQueryV`).
   */
  lemma BareFormIgnoresTail(p: Prefix, id: string, tail: string)
    requires IsCanonicalId(id)
    requires forall i :: 0 <= i < |tail| ==> tail[i] != '?'
    ensures ExtractVideoId(PrefixText(p) + (id + tail)) == Some(id)
  {
    var rest := id + tail;
    TokenAfterLead("", id, tail);
    assert "" + id + tail == rest;
    assert !LeadInMatches(rest, WatchV) by { assert rest[5] == id[5]; }
    assert !LeadInMatches(rest, Embed) by { assert rest[5] == id[5]; }
    assert !LeadInMatches(rest, VSlash) by { assert rest[1] == id[1]; }
    forall i | 1 <= i < |rest|
      ensures rest[i] != '?'
    {
      if i < |id| {
        assert rest[i] == id[i];
      } else {
        assert rest[i] == tail[i - |id|];
      }
    }
    NoQueryVWithoutQuestionMark(rest);
    assert TokenAfterPrefix(rest) == Some(id);
    ExtractAfterPrefix(p, rest);
  }

  /** The four canonical shapes of one identifier all return it. */
  lemma SameIdAcrossShapes(p: Prefix, id: string)
    requires IsCanonicalId(id)
    ensures ExtractVideoId(PrefixText(p) + ("watch?v=" + id)) == Some(id)
    ensures ExtractVideoId(PrefixText(p) + ("embed/" + id)) == Some(id)
    ensures ExtractVideoId(PrefixText(p) + ("v/" + id)) == Some(id)
    ensures ExtractVideoId(PrefixText(Prefix(Https, false, YouTu, Be)) + id) == Some(id)
  {
    assert IsToken(id);
    LeadInFormsIgnoreTail(p, id, "");
    assert "watch?v=" + id + "" == "watch?v=" + id;
    assert "embed/" + id + "" == "embed/" + id;
    assert "v/" + id + "" == "v/" + id;
    BareFormIgnoresTail(Prefix(Https, false, YouTu, Be), id, "");
    assert id + "" == id;
  }

  // ---------------------------------------------------------------------
  // Anchoring and backtracking priority
  // ---------------------------------------------------------------------

  /** Every prefix path starts with `h`, `w` or `y`. */
  lemma PrefixFirstChar(p: Prefix)
    ensures |PrefixText(p)| > 0
    ensures PrefixText(p)[0] in {'h', 'w', 'y'}
  {
  }

  /**
   * `re.match` is anchored: a URL whose first character cannot begin the
   * prefix (`m.youtube.com/...`, `YouTube.com/...`, a leading space) never
   * yields an identifier, whatever follows.
   */
  lemma LeadingTextRejected(c: char, url: string)
    requires c != 'h' && c != 'w' && c != 'y'
    ensures ExtractVideoId([c] + url) == None
  {
    forall p
      ensures !(PrefixText(p) <= [c] + url)
    {
      PrefixFirstChar(p);
      NotPrefixByChar(PrefixText(p), [c] + url, 0);
    }
  }

  /** A string of identifier characters holds no newline, `?` or `/`. */
  lemma IdCharsAreTokenChars(s: string)
    requires forall i :: 0 <= i < |s| ==> IsIdChar(s[i])
    ensures forall i :: 0 <= i < |s| ==> IsTokenChar(s[i]) && s[i] != '\n' && s[i] != '/'
  {
  }

  lemma NotPrefixByChar(a: string, s: string, i: nat)
    requires i < |a| && i < |s| && s[i] != a[i]
    ensures !(a <= s)
  {
  }

  /** None of the three literal lead-ins fits when the second and sixth characters are not `/` or `?`. */
  lemma NoLiteralLeadIn(rest: string)
    requires |rest| > 5 && rest[1] != '/' && rest[5] != '/' && rest[5] != '?'
    ensures !LeadInAt(rest, WatchV) && !LeadInAt(rest, Embed) && !LeadInAt(rest, VSlash)
  {
    NotPrefixByChar("watch?v=", rest, 5);
    NotPrefixByChar("embed/", rest, 5);
    NotPrefixByChar("v/", rest, 1);
  }

  /** The greedy run stops at `k` when no later `?v=` and token fit in `rest`. */
  lemma RunStopsAt(rest: string, k: nat)
    requires !LeadInAt(rest, WatchV) && !LeadInAt(rest, Embed) && !LeadInAt(rest, VSlash)
    requires 1 <= k && QueryVAt(rest, k) && (forall j :: 0 <= j < k ==> rest[j] != '\n')
    requires |rest| < k + 1 + 3 + IdLength
    ensures TokenAfterPrefix(rest) == Some(Window(rest, k + 3))
  {
    NewlineBoundsRun(rest);
    assert LeadInMatches(rest, AnyThenV(k));
  }

  /**
   * The bare token is tried last: after `youtu.be/AAAAAAAAAAA`, a later
   * `?v=BBBBBBBBBBB` takes priority and `BBBBBBBBBBB` is returned.
   */
  lemma BareTokenLosesToLaterQueryV(p: Prefix, a: string, b: string)
    requires IsCanonicalId(a) && IsToken(b)
    ensures ExtractVideoId(PrefixText(p) + (a + "?v=" + b)) == Some(b)
  {
    var rest := a + "?v=" + b;
    IdCharsAreTokenChars(a);
    assert forall j :: 0 <= j < 11 ==> rest[j] == a[j];
    NoLiteralLeadIn(rest);
    TokenAfterLead(a + "?v=", b, "");
    assert a + "?v=" + b + "" == rest;
    assert rest[11..14] == "?v=";
    RunStopsAt(rest, 11);
    ExtractAfterPrefix(p, rest);
  }

  /**
   * Within `.+\?v=`, the greedy run backs off from the end of the line, so
   * the last `?v=` followed by a token wins over an earlier one.
   */
  lemma LastQueryVWins(p: Prefix, x: string, a: string, b: string)
    requires |x| >= 1 && x[0] != 'w' && forall i :: 0 <= i < |x| ==> IsIdChar(x[i])
    requires IsCanonicalId(a) && IsToken(b)
    ensures ExtractVideoId(PrefixText(p) + (x + "?v=" + a + "?v=" + b)) == Some(b)
  {
    var front := x + "?v=" + a;
    var rest := front + "?v=" + b;
    IdCharsAreTokenChars(x);
    IdCharsAreTokenChars(a);
    assert forall j :: 0 <= j < |front| ==> rest[j] == front[j];
    assert forall j :: 0 <= j < |front| ==> front[j] != '\n' && front[j] != '/';
    if |x| == 5 {
      assert rest[5] == '?';
      NotPrefixByChar("watch?v=", rest, 0);
      NotPrefixByChar("embed/", rest, 5);
      NotPrefixByChar("v/", rest, 1);
    } else {
      assert rest[5] != '?';
      NoLiteralLeadIn(rest);
    }
    TokenAfterLead(front + "?v=", b, "");
    assert front + "?v=" + b + "" == rest;
    assert rest[|front|..|front| + 3] == "?v=";
    RunStopsAt(rest, |front|);
    ExtractAfterPrefix(p, rest);
  }

  /**
   * `.` does not match a newline: `.+` cannot reach a `?v=` on a later
   * line, and the bare token is cut by the `?`, so nothing is returned.
   */
  lemma NewlineStopsRun(p: Prefix, x: string, b: string)
    requires 1 <= |x| <= 9 && forall i :: 0 <= i < |x| ==> IsIdChar(x[i])
    ensures ExtractVideoId(PrefixText(p) + (x + "\n?v=" + b)) == None
  {
    var rest := x + "\n?v=" + b;
    IdCharsAreTokenChars(x);
    assert forall j :: 0 <= j < |x| ==> rest[j] == x[j];
    assert rest[|x|] == '\n' && rest[|x| + 1] == '?';
    var i := if |x| <= 5 then |x| else 5;
    NotPrefixByChar("watch?v=", rest, i);
    NotPrefixByChar("embed/", rest, i);
    NotPrefixByChar("v/", rest, 1);
    NoRunBeforeNewline(rest, |x|);
    assert !TokenAt(rest, 0) by { assert !IsTokenChar(rest[|x| + 1]); }
    NothingMatches(rest);
    ExtractAfterPrefix(p, rest);
  }

  /** When no alternative fits, there is no group 6. */
  lemma NothingMatches(rest: string)
    requires !LeadInAt(rest, WatchV) && !LeadInAt(rest, Embed) && !LeadInAt(rest, VSlash)
    requires LastQueryV(rest, LineEnd(rest)).None? && !TokenAt(rest, 0)
    ensures TokenAfterPrefix(rest) == None
  {
  }

  /** With a newline at `n` and no `?` before it, the run `.+\?v=` fails. */
  lemma NoRunBeforeNewline(rest: string, n: nat)
    requires n < |rest| && rest[n] == '\n'
    requires forall j :: 0 <= j < n ==> rest[j] != '\n' && rest[j] != '?'
    ensures LastQueryV(rest, LineEnd(rest)).None?
  {
    assert LineEnd(rest) == n;
    forall k | 1 <= k <= n
      ensures !QueryVAt(rest, k)
    {
      if k + 3 <= |rest| {
        assert rest[k..k + 3][0] == rest[k];
      }
    }
  }

  /**
   * The token class admits `/`, so a path that is not a video route, such
   * as `/shorts/ID`, yields its own first eleven characters.
   */
  lemma ShortsPathYieldsPathText(p: Prefix, id: string, tail: string)
    requires IsCanonicalId(id)
    requires forall i :: 0 <= i < |tail| ==> tail[i] != '?'
    ensures ExtractVideoId(PrefixText(p) + ("shorts/" + id + tail)) == Some("shorts/" + id[..4])
  {
    var rest := "shorts/" + id + tail;
    IdCharsAreTokenChars(id);
    assert forall j :: 0 <= j < |id| ==> rest[7 + j] == id[j];
    forall i | 0 <= i < |rest|
      ensures rest[i] != '?'
    {
      if 7 + |id| <= i {
        assert rest[i] == tail[i - 7 - |id|];
      }
    }
    NoQueryVWithoutQuestionMark(rest);
    NoLiteralLeadIn(rest);
    assert TokenAt(rest, 0);
    assert Window(rest, 0) == "shorts/" + id[..4];
    assert TokenAfterPrefix(rest) == Some("shorts/" + id[..4]);
    ExtractAfterPrefix(p, rest);
  }
}
