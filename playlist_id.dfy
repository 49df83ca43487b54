/**
 * The two `extractPlaylistId` functions of the server. Each regular expression
 * they use is one of three fixed shapes, written here as a direct scan:
 *   `playlist/([a-zA-Z0-9]+)`  and  `playlist:([a-zA-Z0-9]+)`  (unanchored),
 *   `^([a-zA-Z0-9]+)$`          (the whole input).
 * An unanchored pattern matches at the leftmost position where the marker is
 * followed by at least one letter or digit, and its group captures the longest
 * run of letters and digits there.
 */
module PlaylistId {
  import opened Common
  import opened Text

  const SLASH_MARKER: string := "playlist/"
  const COLON_MARKER: string := "playlist:"

  /** The longest prefix of `s` made of letters and digits: what a greedy `[a-zA-Z0-9]+` takes. */
  function AlnumRun(s: string): (r: string)
    ensures |r| <= |s| && r == s[..|r|]
    ensures AllAlnum(r)
    ensures |r| < |s| ==> !IsAlnum(s[|r|])
  {
    if s == [] || !IsAlnum(s[0]) then [] else [s[0]] + AlnumRun(s[1..])
  }

  /** `marker([a-zA-Z0-9]+)` matches `s` at index `i`. */
  predicate MatchesAt(s: string, marker: string, i: int) {
    OccursAt(s, marker, i) && i + |marker| < |s| && IsAlnum(s[i + |marker|])
  }

  /** The leftmost index at or after `from` where `marker([a-zA-Z0-9]+)` matches. */
  function FirstMatch(s: string, marker: string, from: nat): (r: Option<nat>)
    ensures r.Some? ==> from <= r.value && MatchesAt(s, marker, r.value)
    ensures r.Some? ==> forall j :: from <= j < r.value ==> !MatchesAt(s, marker, j)
    ensures r.None? ==> forall j :: from <= j ==> !MatchesAt(s, marker, j)
    decreases |s| - from
  {
    if from >= |s| then None
    else if MatchesAt(s, marker, from) then Some(from)
    else FirstMatch(s, marker, from + 1)
  }

  /** `s.match(/marker([a-zA-Z0-9]+)/)`: capture group 1, or null. */
  function Capture(s: string, marker: string): (r: Option<string>)
    ensures r.None? <==> forall i :: !MatchesAt(s, marker, i)
    ensures r.Some? ==> r.value != [] && AllAlnum(r.value)
  {
    match FirstMatch(s, marker, 0)
    case Some(k) => Some(AlnumRun(s[k + |marker|..]))
    case None => None
  }

  /** The capture is the run after the leftmost match, whatever matches later. */
  lemma CaptureAtFirstMatch(s: string, marker: string, i: int)
    requires MatchesAt(s, marker, i)
    requires forall j :: 0 <= j < i ==> !MatchesAt(s, marker, j)
    ensures Capture(s, marker) == Some(AlnumRun(s[i + |marker|..]))
  {
    var k := FirstMatch(s, marker, 0);
    assert k.Some?;
    assert k.value == i;
  }

  /** `/^([a-zA-Z0-9]+)$/`: the whole input is a non-empty run of letters and digits. */
  predicate IsBareId(s: string) {
    s != [] && AllAlnum(s)
  }

  /**
   * `extractPlaylistId` of api/tracks.js: the three patterns in order, the
   * first that matches decides; null when none does.
   */
  function ExtractStrict(url: string): (r: Option<string>)
    ensures r.Some? ==> IsBareId(r.value)
    ensures r.None? <==>
      (forall i :: !MatchesAt(url, SLASH_MARKER, i)) &&
      (forall i :: !MatchesAt(url, COLON_MARKER, i)) &&
      !IsBareId(url)
  {
    var bySlash := Capture(url, SLASH_MARKER);
    if bySlash.Some? then bySlash
    else
      var byColon := Capture(url, COLON_MARKER);
      if byColon.Some? then byColon
      else if IsBareId(url) then Some(url)
      else None
  }

  /** The leftmost `playlist/<id>` decides, even when `playlist:<id>` occurs earlier. */
  lemma ExtractStrictSlashFirst(url: string, i: int)
    requires MatchesAt(url, SLASH_MARKER, i)
    requires forall j :: 0 <= j < i ==> !MatchesAt(url, SLASH_MARKER, j)
    ensures ExtractStrict(url) == Some(AlnumRun(url[i + |SLASH_MARKER|..]))
  {
    CaptureAtFirstMatch(url, SLASH_MARKER, i);
  }

  /** Without `playlist/<id>`, the leftmost `playlist:<id>` decides. */
  lemma ExtractStrictColonSecond(url: string, i: int)
    requires forall j :: !MatchesAt(url, SLASH_MARKER, j)
    requires MatchesAt(url, COLON_MARKER, i)
    requires forall j :: 0 <= j < i ==> !MatchesAt(url, COLON_MARKER, j)
    ensures ExtractStrict(url) == Some(AlnumRun(url[i + |COLON_MARKER|..]))
  {
    CaptureAtFirstMatch(url, COLON_MARKER, i);
  }

  /** Without either marker, a bare id is returned unchanged. */
  lemma ExtractStrictBareLast(url: string)
    requires forall j :: !MatchesAt(url, SLASH_MARKER, j)
    requires forall j :: !MatchesAt(url, COLON_MARKER, j)
    requires IsBareId(url)
    ensures ExtractStrict(url) == Some(url)
  {
  }

  /** A run of letters and digits holds neither marker: both end in a punctuation mark. */
  lemma NoMarkerInBareId(s: string, i: int)
    requires AllAlnum(s)
    ensures !MatchesAt(s, SLASH_MARKER, i) && !MatchesAt(s, COLON_MARKER, i)
  {
    if 0 <= i && i + 9 <= |s| {
      assert s[i..i + 9][8] == s[i + 8];
      assert IsAlnum(s[i + 8]);
    }
  }

  /** Extracting from an extracted id gives it back. */
  lemma {:induction false} ExtractStrictIdempotent(url: string)
    requires ExtractStrict(url).Some?
    ensures ExtractStrict(ExtractStrict(url).value) == ExtractStrict(url)
  {
    var id := ExtractStrict(url).value;
    forall i
      ensures !MatchesAt(id, SLASH_MARKER, i) && !MatchesAt(id, COLON_MARKER, i)
    {
      NoMarkerInBareId(id, i);
    }
  }

  /**
   * `extractPlaylistId` of api/index.js: the run after the leftmost
   * `playlist/<id>`, otherwise the input itself; never null.
   */
  function ExtractLoose(url: string): (r: string)
    ensures (forall i :: !MatchesAt(url, SLASH_MARKER, i)) ==> r == url
    ensures (exists i :: MatchesAt(url, SLASH_MARKER, i)) ==> IsBareId(r)
  {
    match Capture(url, SLASH_MARKER)
    case Some(id) => id
    case None => url
  }

  /** The loose variant is idempotent on every input. */
  lemma {:induction false} ExtractLooseIdempotent(url: string)
    ensures ExtractLoose(ExtractLoose(url)) == ExtractLoose(url)
  {
    var r := ExtractLoose(url);
    if exists i :: MatchesAt(url, SLASH_MARKER, i) {
      forall i
        ensures !MatchesAt(r, SLASH_MARKER, i)
      {
        NoMarkerInBareId(r, i);
      }
    }
  }

  /** Where both variants find `playlist/<id>`, they agree. */
  lemma VariantsAgreeOnSlash(url: string)
    requires exists i :: MatchesAt(url, SLASH_MARKER, i)
    ensures ExtractStrict(url) == Some(ExtractLoose(url))
  {
  }

  /** The run in `ab?si=x` stops at `?`. */
  lemma RunStopsAtQuery()
    ensures AlnumRun("ab?si=x") == "ab"
  {
    var tail := "ab?si=x";
    assert tail[1..] == "b?si=x" && tail[1..][1..] == "?si=x";
    assert AlnumRun("?si=x") == [];
  }

  /** `playlist/<id>` first matches at index 1 of the share link. */
  lemma ShareLinkMatchesAtOne(url: string)
    requires url == "/playlist/ab?si=x"
    ensures MatchesAt(url, SLASH_MARKER, 1)
    ensures forall j :: 0 <= j < 1 ==> !MatchesAt(url, SLASH_MARKER, j)
    ensures url[1 + |SLASH_MARKER|..] == "ab?si=x"
  {
    assert url[1..10] == SLASH_MARKER;
    assert url[0..9][0] == '/';
  }

  /** A share link with a query string: the id stops at `?`. */
  lemma ShareLinkExample(url: string)
    requires url == "/playlist/ab?si=x"
    ensures ExtractStrict(url) == Some("ab")
    ensures ExtractLoose(url) == "ab"
  {
    ShareLinkMatchesAtOne(url);
    ExtractStrictSlashFirst(url, 1);
    RunStopsAtQuery();
    VariantsAgreeOnSlash(url);
  }

  /** Text with a space and no marker yields null in the strict variant and itself in the loose one. */
  lemma UnparseableExample()
    ensures ExtractStrict("a b") == None
    ensures ExtractLoose("a b") == "a b"
  {
    var url := "a b";
    forall i
      ensures !MatchesAt(url, SLASH_MARKER, i) && !MatchesAt(url, COLON_MARKER, i)
    {
    }
    assert !IsAlnum(url[1]);
  }
}
