/**
 Video references (utils.py): extracting the 11-character video id from a
 URL with an unanchored search, and validating a URL with anchored patterns.
 Both work on ASCII character classes.
 */
module VideoUrls {
  import opened Values
  import opened Text

  const IdLength: nat := 11

  /** The id character class `[0-9A-Za-z_-]`. */
  predicate IsIdChar(c: char) {
    ('0' <= c <= '9') || ('A' <= c <= 'Z') || ('a' <= c <= 'z') || c == '_' || c == '-'
  }

  /** A well-formed video id: exactly 11 id characters. */
  predicate IsVideoId(id: string) {
    |id| == IdLength && forall i :: 0 <= i < |id| ==> IsIdChar(id[i])
  }

  /** Eleven id characters start at position `k`. */
  predicate IdRunAt(s: string, k: nat) {
    k + IdLength <= |s| && IsVideoId(s[k..k + IdLength])
  }

  /** An opener literal followed by eleven id characters, starting at `k`. */
  predicate OpensAt(s: string, k: nat, opener: string) {
    LitAt(s, k, opener) && IdRunAt(s, k + |opener|)
  }

  /** `(?:v=|\/)([0-9A-Za-z_-]{11}).*` — the trailing `.*` never fails. */
  const Pattern1: seq<string> := ["v=", "/"]
  /** `(?:embed\/)([0-9A-Za-z_-]{11})` */
  const Pattern2: seq<string> := ["embed/"]
  /** `(?:watch\?v=)([0-9A-Za-z_-]{11})` */
  const Pattern3: seq<string> := ["watch?v="]

  /** Which alternative of a pattern matches at `k`: alternatives are tried in order. */
  function Alternative(s: string, k: nat, openers: seq<string>): (r: Option<nat>)
    ensures r.Some? ==> r.value < |openers| && OpensAt(s, k, openers[r.value])
    ensures r.Some? ==> forall u :: 0 <= u < r.value ==> !OpensAt(s, k, openers[u])
    ensures r.None? ==> forall u :: 0 <= u < |openers| ==> !OpensAt(s, k, openers[u])
  {
    if openers == [] then None
    else if OpensAt(s, k, openers[0]) then Some(0)
    else match Alternative(s, k, openers[1..])
      case None => None
      case Some(t) => Some(t + 1)
  }

  predicate MatchAt(s: string, k: nat, openers: seq<string>) {
    Alternative(s, k, openers).Some?
  }

  /** Where the eleven captured characters begin when the pattern matches at `k`. */
  function CaptureStart(s: string, k: nat, openers: seq<string>): (c: nat)
    requires MatchAt(s, k, openers)
    ensures IdRunAt(s, c)
  {
    k + |openers[Alternative(s, k, openers).value]|
  }

  /** `re.search`: the leftmost start position at or after `k` where the pattern matches. */
  function Find(s: string, k: nat, openers: seq<string>): (r: Option<nat>)
    requires k <= |s|
    decreases |s| - k
    ensures r.Some? ==> k <= r.value < |s| && MatchAt(s, r.value, openers)
    ensures r.Some? ==> forall i :: k <= i < r.value ==> !MatchAt(s, i, openers)
    ensures r.None? ==> forall i :: k <= i < |s| ==> !MatchAt(s, i, openers)
  {
    if k == |s| then None
    else if MatchAt(s, k, openers) then Some(k)
    else Find(s, k + 1, openers)
  }

  /** `re.search(pattern, url).group(1)`, if the pattern matches anywhere. */
  function Search(s: string, openers: seq<string>): (r: Option<string>)
    ensures r.Some? ==> IsVideoId(r.value)
  {
    match Find(s, 0, openers)
    case None => None
    case Some(j) =>
      var c := CaptureStart(s, j, openers);
      Some(s[c..c + IdLength])
  }

  /** `extract_video_id`: the three patterns are tried in order. */
  function ExtractVideoId(url: string): (r: Option<string>)
    ensures r.Some? ==> IsVideoId(r.value)
  {
    match Search(url, Pattern1)
    case Some(id) => Some(id)
    case None =>
      match Search(url, Pattern2)
      case Some(id) => Some(id)
      case None => Search(url, Pattern3)
  }

  // ---------------------------------------------------------------------------
  // Validation: `re.match` of three anchored patterns.

  const Schemes: seq<string> := ["", "http://", "https://"]
  const WwwPrefixes: seq<string> := ["", "www."]
  const Hosts: seq<string> := ["youtube.com/watch?v=", "youtu.be/", "youtube.com/embed/"]

  /**
   The three validation patterns as written: an optional scheme, an optional
   `www.`, one of the three host paths, then eleven id characters, matched
   from the start of the string.
   */
  predicate AcceptedShape(url: string, scheme: string, www: string, host: string) {
    scheme in Schemes && www in WwwPrefixes && host in Hosts &&
    LitAt(url, 0, scheme + www + host) && IdRunAt(url, |scheme + www + host|)
  }

  ghost predicate PatternAccepts(url: string) {
    exists scheme, www, host :: AcceptedShape(url, scheme, www, host)
  }

  /** Length of the scheme prefix the optional `https?://` group consumes. */
  function SchemeEnd(url: string): nat {
    if LitAt(url, 0, "https://") then 8 else if LitAt(url, 0, "http://") then 7 else 0
  }

  function WwwEnd(url: string): nat {
    var q := SchemeEnd(url);
    if LitAt(url, q, "www.") then q + 4 else q
  }

  /** Where the captured id starts, if some host path follows the optional prefixes. */
  function ValidatedCapture(url: string): Option<nat> {
    var h := WwwEnd(url);
    if OpensAt(url, h, Hosts[0]) then Some(h + |Hosts[0]|)
    else if OpensAt(url, h, Hosts[1]) then Some(h + |Hosts[1]|)
    else if OpensAt(url, h, Hosts[2]) then Some(h + |Hosts[2]|)
    else None
  }

  /** `validate_youtube_url`: the shortest URL it accepts is `youtu.be/` and an id. */
  predicate ValidateYoutubeUrl(url: string): (ok: bool)
    ensures ok ==> |url| >= |Hosts[1]| + IdLength && ValidatedCapture(url).Some? && IdRunAt(url, ValidatedCapture(url).value)
  {
    ValidatedCapture(url).Some?
  }

  // ---------------------------------------------------------------------------
  // Facts about literals and openers.

  /** Pattern 1 in plain terms: `v=` or `/`, then eleven id characters. */
  lemma Pattern1At(s: string, k: nat)
    ensures MatchAt(s, k, Pattern1) <==> OpensAt(s, k, "v=") || OpensAt(s, k, "/")
    ensures OpensAt(s, k, "v=") ==> CaptureStart(s, k, Pattern1) == k + 2
    ensures !OpensAt(s, k, "v=") && OpensAt(s, k, "/") ==> CaptureStart(s, k, Pattern1) == k + 1
  {
    assert Pattern1[0] == "v=" && Pattern1[1] == "/";
    if OpensAt(s, k, "v=") {
      assert Alternative(s, k, Pattern1) == Some(0);
    } else if OpensAt(s, k, "/") {
      assert Alternative(s, k, Pattern1) == Some(1);
    }
  }

  /** A non-id character within reach of a start position rules pattern 1 out there. */
  lemma Blocked(s: string, i: nat, m: nat)
    requires i < m < |s| && m <= i + IdLength
    requires !IsIdChar(s[m]) && (m > i + 1 || s[m] != '=')
    ensures !MatchAt(s, i, Pattern1)
  {
    Pattern1At(s, i);
    if i + 2 <= |s| {
      assert s[i..i + 2][1] == s[i + 1];
    }
    if i + 1 + IdLength <= |s| {
      assert s[i + 1..i + 1 + IdLength][m - (i + 1)] == s[m];
    }
    if i + 2 + IdLength <= |s| && m >= i + 2 {
      assert s[i + 2..i + 2 + IdLength][m - (i + 2)] == s[m];
    }
  }

  lemma BlockedRange(s: string, lo: nat, hi: nat, m: nat)
    requires lo <= hi <= m < |s| && m <= lo + IdLength
    requires !IsIdChar(s[m]) && (m > hi || s[m] != '=')
    ensures forall i :: lo <= i < hi ==> !MatchAt(s, i, Pattern1)
  {
    forall i | lo <= i < hi
      ensures !MatchAt(s, i, Pattern1)
    {
      Blocked(s, i, m);
    }
  }

  /** A match with nothing before it is the one the search reports. */
  lemma FindLeftmost(s: string, o: nat, openers: seq<string>)
    requires o < |s| && MatchAt(s, o, openers)
    requires forall i :: 0 <= i < o ==> !MatchAt(s, i, openers)
    ensures Find(s, 0, openers) == Some(o)
  {
  }

  // ---------------------------------------------------------------------------
  // Properties of extraction.

  /**
   Patterns 2 and 3 never decide the outcome: wherever `embed/` or
   `watch?v=` opens an id, pattern 1 opens the same id a few characters
   later, so the result is always pattern 1's.
   */
  lemma {:induction false} LaterPatternsNeverDecide(url: string)
    ensures ExtractVideoId(url) == Search(url, Pattern1)
  {
    if Search(url, Pattern1).None? {
      assert Find(url, 0, Pattern1).None?;
      match Find(url, 0, Pattern2)
      case Some(j) =>
        assert OpensAt(url, j, "embed/") by {
          assert Pattern2[0] == "embed/";
        }
        LitInside(url, j, "embed/", 5, "/");
        Pattern1At(url, j + 5);
        assert false;
      case None =>
        match Find(url, 0, Pattern3)
        case Some(j) =>
          assert OpensAt(url, j, "watch?v=") by {
            assert Pattern3[0] == "watch?v=";
          }
          LitInside(url, j, "watch?v=", 6, "v=");
          Pattern1At(url, j + 6);
          assert false;
        case None =>
    }
  }

  /**
   The extracted id is the eleven id characters after the leftmost `v=` or
   `/` that is followed by eleven id characters; there is no id exactly when
   no such opener exists.
   */
  lemma ExtractIsLeftmostOpener(url: string, o: nat)
    requires o < |url| && (OpensAt(url, o, "v=") || OpensAt(url, o, "/"))
    requires forall i :: 0 <= i < o ==> !OpensAt(url, i, "v=") && !OpensAt(url, i, "/")
    ensures OpensAt(url, o, "v=") ==> ExtractVideoId(url) == Some(url[o + 2..o + 2 + IdLength])
    ensures !OpensAt(url, o, "v=") ==> ExtractVideoId(url) == Some(url[o + 1..o + 1 + IdLength])
  {
    forall i | 0 <= i < o
      ensures !MatchAt(url, i, Pattern1)
    {
      Pattern1At(url, i);
    }
    Pattern1At(url, o);
    FindLeftmost(url, o, Pattern1);
    LaterPatternsNeverDecide(url);
  }

  lemma ExtractNoneIffNoOpener(url: string)
    ensures ExtractVideoId(url).None? <==>
      forall i :: 0 <= i < |url| ==> !OpensAt(url, i, "v=") && !OpensAt(url, i, "/")
  {
    LaterPatternsNeverDecide(url);
    forall i | 0 <= i < |url|
      ensures MatchAt(url, i, Pattern1) <==> OpensAt(url, i, "v=") || OpensAt(url, i, "/")
    {
      Pattern1At(url, i);
    }
  }

  // ---------------------------------------------------------------------------
  // Properties of validation.

  /** Index of the first host path that opens an id after the optional prefixes. */
  function HostIndex(url: string): nat
    requires ValidateYoutubeUrl(url)
  {
    var h := WwwEnd(url);
    if OpensAt(url, h, Hosts[0]) then 0 else if OpensAt(url, h, Hosts[1]) then 1 else 2
  }

  lemma HostFacts(url: string)
    requires ValidateYoutubeUrl(url)
    ensures OpensAt(url, WwwEnd(url), Hosts[HostIndex(url)])
    ensures ValidatedCapture(url) == Some(WwwEnd(url) + |Hosts[HostIndex(url)]|)
  {
  }

  /** The character right after the optional `www.` is `y`, and the host's first `.` is at most 7 further. */
  lemma HostFirstDot(url: string) returns (d: nat)
    requires ValidateYoutubeUrl(url)
    ensures d == WwwEnd(url) + (if HostIndex(url) == 1 then 5 else 7)
    ensures d < |url| && url[d] == '.'
    ensures forall i :: WwwEnd(url) <= i < d ==> !MatchAt(url, i, Pattern1)
  {
    var h := WwwEnd(url);
    HostFacts(url);
    var host := Hosts[HostIndex(url)];
    d := if HostIndex(url) == 1 then h + 5 else h + 7;
    LitChar(url, h, host, d - h);
    BlockedRange(url, h, d, d);
  }

  /** No pattern-1 opener before the host path: every scheme and `www.` character is too close to a separator. */
  lemma NoOpenerBeforeHost(url: string)
    requires ValidateYoutubeUrl(url)
    ensures forall i :: 0 <= i < WwwEnd(url) ==> !MatchAt(url, i, Pattern1)
  {
    var q := SchemeEnd(url);
    var h := WwwEnd(url);
    var d := HostFirstDot(url);
    // the first separator at or after the scheme
    var d1 := d;
    if h == q + 4 {
      assert LitAt(url, q, "www.");
      LitChar(url, q, "www.", 3);
      d1 := q + 3;
      BlockedRange(url, q, q + 3, q + 3);
      BlockedRange(url, q + 3, q + 4, d);
    }
    if q == 8 {
      assert LitAt(url, 0, "https://");
      LitChar(url, 0, "https://", 5);
      LitChar(url, 0, "https://", 6);
      LitChar(url, 0, "https://", 7);
      BlockedRange(url, 0, 5, 5);
      BlockedRange(url, 5, 6, 6);
      BlockedRange(url, 6, 7, 7);
      BlockedRange(url, 7, 8, d1);
    } else if q == 7 {
      assert LitAt(url, 0, "http://");
      LitChar(url, 0, "http://", 4);
      LitChar(url, 0, "http://", 5);
      LitChar(url, 0, "http://", 6);
      BlockedRange(url, 0, 4, 4);
      BlockedRange(url, 4, 5, 5);
      BlockedRange(url, 5, 6, 6);
      BlockedRange(url, 6, 7, d1);
    }
  }

  /** Inside the `youtube.com/watch?v=` path the only pattern-1 opener is the `v=`. */
  lemma WatchOpener(url: string, h: nat) returns (o: nat)
    requires OpensAt(url, h, Hosts[0])
    ensures o == h + 18 && OpensAt(url, o, "v=")
    ensures forall i :: h + 7 <= i < o ==> !MatchAt(url, i, Pattern1)
  {
    var host := Hosts[0];
    LitChar(url, h, host, 11);
    LitChar(url, h, host, 17);
    LitChar(url, h, host, 19);
    BlockedRange(url, h + 7, h + 11, h + 11);
    BlockedRange(url, h + 11, h + 17, h + 17);
    BlockedRange(url, h + 17, h + 18, h + 19);
    o := h + 18;
    LitInside(url, h, host, 18, "v=");
  }

  /** Inside `youtu.be/` the only pattern-1 opener is the final `/`. */
  lemma ShortOpener(url: string, h: nat) returns (o: nat)
    requires OpensAt(url, h, Hosts[1])
    ensures o == h + 8 && OpensAt(url, o, "/") && !OpensAt(url, o, "v=")
    ensures forall i :: h + 5 <= i < o ==> !MatchAt(url, i, Pattern1)
  {
    var host := Hosts[1];
    LitChar(url, h, host, 8);
    BlockedRange(url, h + 5, h + 8, h + 8);
    o := h + 8;
    LitInside(url, h, host, 8, "/");
    assert url[o..o + 2][0] == url[o];
  }

  /** Inside `youtube.com/embed/` the only pattern-1 opener is the final `/`. */
  lemma EmbedOpener(url: string, h: nat) returns (o: nat)
    requires OpensAt(url, h, Hosts[2])
    ensures o == h + 17 && OpensAt(url, o, "/") && !OpensAt(url, o, "v=")
    ensures forall i :: h + 7 <= i < o ==> !MatchAt(url, i, Pattern1)
  {
    var host := Hosts[2];
    LitChar(url, h, host, 11);
    LitChar(url, h, host, 17);
    BlockedRange(url, h + 7, h + 11, h + 11);
    BlockedRange(url, h + 11, h + 17, h + 17);
    o := h + 17;
    LitInside(url, h, host, 17, "/");
    assert url[o..o + 2][0] == url[o];
  }

  /** Inside the host path the only pattern-1 opener is the one just before the id. */
  lemma HostOpener(url: string) returns (o: nat)
    requires ValidateYoutubeUrl(url)
    ensures o < |url| && (OpensAt(url, o, "v=") || OpensAt(url, o, "/"))
    ensures OpensAt(url, o, "v=") ==> o + 2 == ValidatedCapture(url).value
    ensures !OpensAt(url, o, "v=") ==> o + 1 == ValidatedCapture(url).value
    ensures forall i :: WwwEnd(url) <= i < o ==> !MatchAt(url, i, Pattern1)
  {
    var h := WwwEnd(url);
    HostFacts(url);
    var d := HostFirstDot(url);
    var t := HostIndex(url);
    if t == 0 {
      o := WatchOpener(url, h);
    } else if t == 1 {
      o := ShortOpener(url, h);
    } else {
      o := EmbedOpener(url, h);
    }
  }

  /**
   A URL that validates yields, when extracted, exactly the eleven
   characters the validating pattern captured.
   */
  lemma ValidatedUrlYieldsSameId(url: string)
    requires ValidateYoutubeUrl(url)
    ensures ExtractVideoId(url) == Some(url[ValidatedCapture(url).value..ValidatedCapture(url).value + IdLength])
  {
    NoOpenerBeforeHost(url);
    var o := HostOpener(url);
    forall i | 0 <= i < o
      ensures !OpensAt(url, i, "v=") && !OpensAt(url, i, "/")
    {
      Pattern1At(url, i);
    }
    ExtractIsLeftmostOpener(url, o);
  }

  /** The prefixes the deterministic reading consumes are exactly the ones a pattern match used. */
  lemma ShapeDeterminesPrefixes(url: string, scheme: string, www: string, host: string)
    requires AcceptedShape(url, scheme, www, host)
    ensures SchemeEnd(url) == |scheme| && WwwEnd(url) == |scheme| + |www|
    ensures OpensAt(url, WwwEnd(url), host)
  {
    LitConcat(url, 0, scheme + www, host);
    LitConcat(url, 0, scheme, www);
    var q := |scheme|;
    var h := q + |www|;
    LitChar(url, h, host, 0);
    assert host[0] == 'y';
    if www == "www." {
      LitChar(url, q, www, 0);
    }
    SchemeDetermined(url, scheme);
    WwwDetermined(url, q, www);
    assert h + |host| == |scheme + www + host|;
  }

  /** A scheme followed by the `y` of a host or the `w` of `www.` is the scheme `SchemeEnd` skips. */
  lemma SchemeDetermined(url: string, scheme: string)
    requires scheme in Schemes && LitAt(url, 0, scheme) && |scheme| < |url|
    requires url[|scheme|] == 'y' || url[|scheme|] == 'w'
    ensures SchemeEnd(url) == |scheme|
  {
    if scheme == "http://" {
      LitChar(url, 0, scheme, 4);
      assert url[0..8][4] == url[4];
    } else if scheme == "" {
      if |url| >= 7 {
        assert url[0..7][0] == url[0];
      }
      if |url| >= 8 {
        assert url[0..8][0] == url[0];
      }
    }
  }

  /** An optional `www.` followed by the `y` of a host is the prefix `WwwEnd` skips. */
  lemma WwwDetermined(url: string, q: nat, www: string)
    requires www in WwwPrefixes && LitAt(url, q, www) && q + |www| < |url| && url[q + |www|] == 'y'
    ensures (if LitAt(url, q, "www.") then q + 4 else q) == q + |www|
  {
    if www == "" && q + 4 <= |url| {
      assert url[q..q + 4][0] == url[q];
    }
  }

  /**
   `validate_youtube_url` accepts exactly the strings that start with an
   optional `http://` or `https://`, an optional `www.`, one of the three
   host paths and eleven id characters.
   */
  lemma ValidateAgreesWithPatterns(url: string)
    ensures ValidateYoutubeUrl(url) <==> PatternAccepts(url)
  {
    if ValidateYoutubeUrl(url) {
      ValidatedHasShape(url);
    }
    if PatternAccepts(url) {
      var scheme, www, host :| AcceptedShape(url, scheme, www, host);
      ShapeDeterminesPrefixes(url, scheme, www, host);
    }
  }

  /** An accepted url is laid out as the scheme, `www.` and host prefixes that were skipped, then the id. */
  lemma ValidatedHasShape(url: string)
    requires ValidateYoutubeUrl(url)
    ensures PatternAccepts(url)
  {
    var q := SchemeEnd(url);
    var h := WwwEnd(url);
    var scheme := if q == 8 then "https://" else if q == 7 then "http://" else "";
    var www := if h == q + 4 then "www." else "";
    HostFacts(url);
    var host := Hosts[HostIndex(url)];
    assert LitAt(url, 0, scheme);
    assert LitAt(url, q, www);
    LitConcat(url, 0, scheme, www);
    LitConcat(url, 0, scheme + www, host);
    assert AcceptedShape(url, scheme, www, host);
  }

  /** Mobile links (`m.youtube.com/...`, with or without a scheme) are not accepted shapes. */
  lemma MobileHostRejected(url: string, scheme: string)
    requires scheme in Schemes && LitAt(url, 0, scheme + "m.youtube.com/")
    ensures !ValidateYoutubeUrl(url)
    ensures !PatternAccepts(url)
  {
    LitConcat(url, 0, scheme, "m.youtube.com/");
    var q := |scheme|;
    LitChar(url, q, "m.youtube.com/", 0);
    assert url[q] == 'm';
    if scheme == "http://" {
      LitChar(url, 0, scheme, 4);
      assert url[0..8][4] == url[4];
    } else if scheme == "" {
      assert url[0..7][0] == url[0];
      if |url| >= 8 {
        assert url[0..8][0] == url[0];
      }
    }
    assert SchemeEnd(url) == q;
    assert url[q..q + 4][0] == url[q];
    assert WwwEnd(url) == q;
    forall t | 0 <= t < |Hosts|
      ensures !LitAt(url, q, Hosts[t])
    {
      if q + |Hosts[t]| <= |url| {
        assert url[q..q + |Hosts[t]|][0] == url[q];
      }
    }
    ValidateAgreesWithPatterns(url);
  }
}
