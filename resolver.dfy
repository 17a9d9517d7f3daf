/**
 * Track descriptors and the query classifier of the `play` command.
 *
 * The media extractor itself is opaque: it hands back, for one query, either
 * nothing or a sequence of entries whose fields may each be missing. This
 * module turns such an entry into the four-field track the queues hold, and
 * decides whether a user query goes to the extractor unchanged (a playlist)
 * or as a one-result text search.
 */
module Resolver {

  datatype Option<T> = None | Some(value: T)

  /** One entry as the extractor returns it; every field may be absent. */
  datatype Entry = Entry(url: Option<string>, title: Option<string>,
                         webpageUrl: Option<string>, thumbnail: Option<string>)

  /** A queued track: (audio_url, title, webpage_url, thumbnail). Only the title has a default. */
  datatype Track = Track(audioUrl: Option<string>, title: string,
                         webpageUrl: Option<string>, thumbnail: Option<string>)

  const DefaultTitle: string := "Untitled"
  const SearchPrefix: string := "ytsearch1:"
  const PlaylistPath: string := "youtube.com/playlist"
  const ListParam: string := "&list="

  /** Builds the stored tuple from an extractor entry, defaulting a missing title. */
  function ToTrack(e: Entry): (t: Track)
    ensures e.title.None? ==> t.title == DefaultTitle
    ensures e.title.Some? ==> t.title == e.title.value
    ensures t.audioUrl == e.url && t.webpageUrl == e.webpageUrl && t.thumbnail == e.thumbnail
  {
    Track(e.url, if e.title.Some? then e.title.value else DefaultTitle, e.webpageUrl, e.thumbnail)
  }

  /** The tracks the enqueue loop appends, one per entry and in the extractor's order. */
  function ToTracks(es: seq<Entry>): (ts: seq<Track>)
    ensures |ts| == |es|
    ensures forall i :: 0 <= i < |es| ==> ts[i] == ToTrack(es[i])
  {
    if es == [] then [] else [ToTrack(es[0])] + ToTracks(es[1..])
  }

  /** One more entry appends one more track at the tail of whatever precedes the tracks. */
  lemma ToTracksSnoc(base: seq<Track>, es: seq<Entry>, i: int)
    requires 0 <= i < |es|
    ensures base + ToTracks(es[..i + 1]) == (base + ToTracks(es[..i])) + [ToTrack(es[i])]
  {
    var l, r := ToTracks(es[..i + 1]), ToTracks(es[..i]) + [ToTrack(es[i])];
    assert |l| == |r|;
    forall k | 0 <= k < |l| ensures l[k] == r[k] {
      assert es[..i + 1][k] == if k < i then es[..i][k] else es[i];
    }
  }

  predicate IsPrefix(p: string, s: string) {
    |p| <= |s| && s[..|p|] == p
  }

  /** Python's substring test `pat in s`, scanning from the left. */
  predicate Contains(s: string, pat: string)
    decreases |s|
  {
    IsPrefix(pat, s) || (|s| > 0 && Contains(s[1..], pat))
  }

  /** An occurrence of pat in s starting at position i. */
  predicate OccursAt(s: string, pat: string, i: int) {
    0 <= i && i + |pat| <= |s| && s[i..i + |pat|] == pat
  }

  /** The scan agrees with "some window of s equals pat". */
  lemma {:induction false} ContainsIffWindow(s: string, pat: string)
    ensures Contains(s, pat) <==> exists i :: OccursAt(s, pat, i)
  {
    if IsPrefix(pat, s) {
      assert OccursAt(s, pat, 0);
    } else if |s| == 0 {
    } else {
      ContainsIffWindow(s[1..], pat);
      if Contains(s, pat) {
        var j :| OccursAt(s[1..], pat, j);
        assert s[j + 1..j + 1 + |pat|] == s[1..][j..j + |pat|];
        assert OccursAt(s, pat, j + 1);
      }
      if exists i :: OccursAt(s, pat, i) {
        var i :| OccursAt(s, pat, i);
        assert i != 0;
        assert s[1..][i - 1..i - 1 + |pat|] == s[i..i + |pat|];
        assert OccursAt(s[1..], pat, i - 1);
      }
    }
  }

  /** A prefix none of whose suffixes can start an occurrence of pat does not change `pat in _`. */
  lemma {:induction false} ContainsUnderPrefix(p: string, q: string, pat: string)
    requires forall k :: 0 <= k < |p| ==> !IsPrefix(pat, p[k..] + q)
    ensures Contains(p + q, pat) <==> Contains(q, pat)
  {
    if p != [] {
      assert p[0..] == p;
      assert (p + q)[1..] == p[1..] + q;
      forall k | 0 <= k < |p[1..]| ensures !IsPrefix(pat, p[1..][k..] + q) {
        assert p[1..][k..] == p[k + 1..];
      }
      ContainsUnderPrefix(p[1..], q, pat);
    } else {
      assert p + q == q;
    }
  }

  /** The query is handed to the extractor as a playlist. */
  predicate IsPlaylistQuery(q: string) {
    Contains(q, PlaylistPath) || Contains(q, ListParam)
  }

  /** Neither playlist marker can straddle the search prefix and the user's text. */
  lemma SearchPrefixHidesNoMarker(q: string)
    ensures IsPlaylistQuery(SearchPrefix + q) <==> IsPlaylistQuery(q)
  {
    forall k | 0 <= k < |SearchPrefix| ensures !IsPrefix(PlaylistPath, SearchPrefix[k..] + q) {
      var x := SearchPrefix[k..] + q;
      assert x[0] == SearchPrefix[k];
      if k == 0 {
        assert x[1] == 't' != PlaylistPath[1];
      } else {
        assert x[0] != PlaylistPath[0];
      }
    }
    forall k | 0 <= k < |SearchPrefix| ensures !IsPrefix(ListParam, SearchPrefix[k..] + q) {
      var x := SearchPrefix[k..] + q;
      assert x[0] == SearchPrefix[k] != ListParam[0];
    }
    ContainsUnderPrefix(SearchPrefix, q, PlaylistPath);
    ContainsUnderPrefix(SearchPrefix, q, ListParam);
  }

  /**
   * The query sent to the extractor: a playlist reference passes unchanged,
   * anything else becomes a one-result search. The rewritten query is routed
   * the same way the user's text was.
   */
  function ClassifyQuery(q: string): (r: string)
    ensures IsPlaylistQuery(r) <==> IsPlaylistQuery(q)
    ensures r == q || r == SearchPrefix + q
  {
    SearchPrefixHidesNoMarker(q);
    if IsPlaylistQuery(q) then q else SearchPrefix + q
  }

  /** The user's text can be read back from the classified query. */
  lemma ClassifyQueryRecoverable(q: string)
    ensures IsPlaylistQuery(ClassifyQuery(q)) ==> ClassifyQuery(q) == q
    ensures !IsPlaylistQuery(ClassifyQuery(q)) ==>
              IsPrefix(SearchPrefix, ClassifyQuery(q)) && ClassifyQuery(q)[|SearchPrefix|..] == q
  {
    var r := ClassifyQuery(q);
    if !IsPlaylistQuery(r) {
      assert r == SearchPrefix + q;
      assert r[..|SearchPrefix|] == SearchPrefix;
    }
  }
}
