/**
 * The inline extractor of app.py: `re.search(r"(?:v=|\/)([0-9A-Za-z_-]{11})", url)`
 * and its group 1. `re.search` tries every start position from the left;
 * at each one it tries `v=` before `/`. The host is never looked at.
 */
module SearchId {
  import opened Wrappers
  import opened IdAlphabet

  /** Eleven identifier characters start at offset `i` of `s`. */
  predicate IdAt(s: string, i: nat) {
    i + IdLength <= |s| && forall j :: i <= j < i + IdLength ==> IsIdChar(s[j])
  }

  /** `v=` and then eleven identifier characters start at `i`. */
  predicate VEqualsAt(s: string, i: nat) {
    i + 2 <= |s| && s[i] == 'v' && s[i + 1] == '=' && IdAt(s, i + 2)
  }

  /** `/` and then eleven identifier characters start at `i`. */
  predicate SlashAt(s: string, i: nat) {
    i < |s| && s[i] == '/' && IdAt(s, i + 1)
  }

  /** The pattern matches with its match starting at `i`. */
  predicate MatchAt(s: string, i: nat) {
    VEqualsAt(s, i) || SlashAt(s, i)
  }

  /** Where group 1 starts for a match at `i`; the two alternatives cannot both fit one position. */
  function GroupStart(s: string, i: nat): (g: nat)
    requires MatchAt(s, i)
    ensures IdAt(s, g)
  {
    if VEqualsAt(s, i) then i + 2 else i + 1
  }

  /** The leftmost position at or after `from` where the pattern matches. */
  function LeftmostMatch(s: string, from: nat): (r: Option<nat>)
    requires from <= |s|
    ensures r.Some? ==> from <= r.value < |s| && MatchAt(s, r.value)
    ensures r.Some? ==> forall j :: from <= j < r.value ==> !MatchAt(s, j)
    ensures r.None? ==> forall j :: from <= j < |s| ==> !MatchAt(s, j)
    decreases |s| - from
  {
    if from == |s| then None
    else if MatchAt(s, from) then Some(from)
    else LeftmostMatch(s, from + 1)
  }

  /** The video identifier app.py reads off the URL: group 1 of the leftmost match. */
  function SearchVideoId(url: string): (r: Option<string>)
    ensures r.None? <==> forall i :: 0 <= i < |url| ==> !MatchAt(url, i)
    ensures r.Some? ==> exists i :: 0 <= i < |url| && MatchAt(url, i)
                                  && (forall j :: 0 <= j < i ==> !MatchAt(url, j))
                                  && r.value == url[GroupStart(url, i)..GroupStart(url, i) + IdLength]
    ensures r.Some? ==> IsCanonicalId(r.value)
  {
    match LeftmostMatch(url, 0)
    case None => None
    case Some(i) =>
      var g := GroupStart(url, i);
      Some(url[g..g + IdLength])
  }

  // ---------------------------------------------------------------------
  // Properties
  // ---------------------------------------------------------------------

  /** A match at `i` with none before it fixes the result. */
  lemma LeftmostDecides(s: string, i: nat)
    requires i < |s| && MatchAt(s, i)
    requires forall j :: 0 <= j < i ==> !MatchAt(s, j)
    ensures SearchVideoId(s) == Some(s[GroupStart(s, i)..GroupStart(s, i) + IdLength])
  {
    var r := LeftmostMatch(s, 0);
    assert r.Some?;
    assert r.value == i;
  }

  /**
   * The host is never checked: any text at all, followed by `v=` or `/`
   * and an identifier, yields an identifier.
   */
  lemma NoHostCheck(pre: string, lead: string, id: string)
    requires lead == "v=" || lead == "/"
    requires IsCanonicalId(id)
    ensures SearchVideoId(pre + lead + id).Some?
  {
    var s := pre + lead + id;
    assert forall j :: 0 <= j < |id| ==> s[|pre| + |lead| + j] == id[j];
    assert MatchAt(s, |pre|);
  }

  /** A token longer than eleven characters is accepted and cut to its first eleven. */
  lemma LongTokenTruncated(lead: string, token: string)
    requires lead == "v=" || lead == "/"
    requires |token| >= IdLength && forall i :: 0 <= i < |token| ==> IsIdChar(token[i])
    ensures SearchVideoId(lead + token) == Some(token[..IdLength])
  {
    var s := lead + token;
    assert forall j :: 0 <= j < |token| ==> s[|lead| + j] == token[j];
    assert MatchAt(s, 0);
    LeftmostDecides(s, 0);
    assert s[|lead|..|lead| + IdLength] == token[..IdLength];
  }

  /**
   * The scheme's second slash is followed by eleven identifier characters
   * when the host is `youtube-nocookie` without `www.`, so the host name
   * itself is taken for the identifier, whatever the path holds.
   */
  lemma NoCookieHostMisread(tail: string)
    ensures SearchVideoId("https://youtube-nocookie.com/" + tail) == Some("youtube-noc")
  {
    var s := "https://youtube-nocookie.com/" + tail;
    assert s[..29] == "https://youtube-nocookie.com/";
    forall j | 0 <= j < 7
      ensures !MatchAt(s, j)
    {
      assert s[j] == "https://"[j];
      assert s[j + 1] == "https://"[j + 1];
    }
    assert forall k :: 8 <= k < 19 ==> s[k] == "youtube-noc"[k - 8];
    assert s[8..19] == "youtube-noc";
    assert MatchAt(s, 7);
    LeftmostDecides(s, 7);
  }
}
