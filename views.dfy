/**
 * The paginated queue display: a snapshot of one guild's pending tracks,
 * shown `perPage` at a time with 1-based ordinals, navigated with a
 * "previous" and a "next" button that only the requesting user may press.
 *
 * Page arithmetic follows Python: `//` floors (for a positive divisor that is
 * Dafny's `/`), and a slice bound below zero counts from the end of the list
 * before it is clamped.
 */
module Views {
  import opened Resolver

  const DefaultPerPage: int := 10
  const IdleTimeout: int := 60

  /** One line of the embed: the ordinal label and the track's title. */
  datatype Line = Line(ordinal: int, title: string)

  /** What the view renders: "Page pageNumber/pageCount" and one line per shown track. */
  datatype Embed = Embed(pageNumber: int, pageCount: int, lines: seq<Line>)

  datatype Button = Prev | Next

  function Min(a: int, b: int): int { if a < b then a else b }

  /** Python's normalisation of a slice bound `i` for a list of length n. */
  function PyIndex(i: int, n: nat): (k: nat)
    ensures k <= n
    ensures 0 <= i ==> k == Min(i, n)
  {
    if i < 0 then (if i + n < 0 then 0 else i + n) else Min(i, n)
  }

  /** Python's `s[start:end]` for a step of 1. */
  function PySlice<T>(s: seq<T>, start: int, end: int): seq<T>
  {
    var lo, hi := PyIndex(start, |s|), PyIndex(end, |s|);
    if lo < hi then s[lo..hi] else []
  }

  /** Normalised bounds never lie further apart than the raw ones. */
  lemma PyIndexSpread(i: int, j: int, n: nat)
    requires i <= j
    ensures PyIndex(j, n) - PyIndex(i, n) <= j - i
  {
  }

  /** Index of the last page: `(len(songs) - 1) // per_page`. */
  function MaxPage(n: nat, perPage: int): int
    requires perPage > 0
  {
    (n - 1) / perPage
  }

  /** The page count shown in the embed title: `(len(songs) - 1) // per_page + 1`. */
  function PageCount(n: nat, perPage: int): int
    requires perPage > 0
  {
    MaxPage(n, perPage) + 1
  }

  /** The page count is the ceiling of n / perPage, and 0 for an empty list. */
  lemma PageCountIsCeiling(n: nat, perPage: int)
    requires perPage > 0
    ensures n == 0 ==> PageCount(n, perPage) == 0
    ensures n > 0 ==> PageCount(n, perPage) >= 1 &&
                      (PageCount(n, perPage) - 1) * perPage < n <= PageCount(n, perPage) * perPage
  {
    var q, r := (n - 1) / perPage, (n - 1) % perPage;
    assert n - 1 == q * perPage + r && 0 <= r < perPage;
    if n > 0 {
      assert q >= 0;
      assert (q + 1) * perPage == q * perPage + perPage;
    } else {
      assert q == -1;
    }
  }

  /** The tracks on page `page`: `songs[page*per_page : page*per_page + per_page]`. */
  function PageSlice(songs: seq<Track>, page: int, perPage: int): (r: seq<Track>)
    requires perPage > 0
    ensures |r| <= perPage
    ensures 0 <= page ==>
              page * perPage >= 0 &&
              r == songs[Min(page * perPage, |songs|)..Min(page * perPage + perPage, |songs|)]
    ensures page == -1 ==> r == []
  {
    var start := page * perPage;
    PyIndexSpread(start, start + perPage, |songs|);
    PySlice(songs, start, start + perPage)
  }

  /** The lines of the embed for page `page`: ordinals count on from `page*per_page + 1`. */
  function PageLines(songs: seq<Track>, page: int, perPage: int): seq<Line>
    requires perPage > 0
  {
    var shown := PageSlice(songs, page, perPage);
    seq(|shown|, k requires 0 <= k < |shown| => Line(page * perPage + 1 + k, shown[k].title))
  }

  /**
   * On a page at or after the first, each line's ordinal is the track's
   * 1-based position in the whole queue, so ordinals continue across pages.
   */
  lemma PageLinesArePositions(songs: seq<Track>, page: int, perPage: int)
    requires perPage > 0 && page >= 0
    ensures |PageLines(songs, page, perPage)| <= perPage
    ensures forall k :: 0 <= k < |PageLines(songs, page, perPage)| ==>
              var l := PageLines(songs, page, perPage)[k];
              l.ordinal == page * perPage + 1 + k && 1 <= l.ordinal <= |songs| &&
              l.title == songs[l.ordinal - 1].title
  {
  }

  /** The pages from `p` up to (not including) `count`, laid end to end. */
  function PagesFrom(songs: seq<Track>, perPage: int, p: nat, count: nat): seq<Track>
    requires perPage > 0
    decreases count - p
  {
    if p >= count then [] else PageSlice(songs, p, perPage) + PagesFrom(songs, perPage, p + 1, count)
  }

  lemma MulMonotone(a: int, b: int, c: int)
    requires a <= b && c > 0
    ensures a * c <= b * c
  {
  }

  lemma {:induction false} PagesFromIsSuffix(songs: seq<Track>, perPage: int, p: nat)
    requires perPage > 0 && |songs| > 0 && p <= PageCount(|songs|, perPage)
    ensures p * perPage >= 0
    ensures PagesFrom(songs, perPage, p, PageCount(|songs|, perPage)) ==
            songs[Min(p * perPage, |songs|)..]
    decreases PageCount(|songs|, perPage) - p
  {
    var n, c := |songs|, PageCount(|songs|, perPage);
    PageCountIsCeiling(n, perPage);
    MulMonotone(0, p, perPage);
    if p == c {
      assert p * perPage >= n;
    } else {
      var lo := p * perPage;
      PagesFromIsSuffix(songs, perPage, p + 1);
      assert (p + 1) * perPage == lo + perPage;
      MulMonotone(p, c - 1, perPage);
      assert lo < n;
      var mid := Min(lo + perPage, n);
      assert PageSlice(songs, p, perPage) == songs[lo..mid];
      assert songs[lo..mid] + songs[mid..] == songs[lo..];
    }
  }

  /** Reading every page in turn shows the whole queue once, in order. */
  lemma PagesCoverQueue(songs: seq<Track>, perPage: int)
    requires perPage > 0
    ensures PagesFrom(songs, perPage, 0, if songs == [] then 0 else PageCount(|songs|, perPage)) == songs
  {
    if songs != [] {
      PagesFromIsSuffix(songs, perPage, 0);
    }
  }

  /** "Previous" is disabled on the first page and before it. */
  predicate PrevDisabledAt(page: int) { page <= 0 }

  /** "Next" is disabled on the last page and after it. */
  predicate NextDisabledAt(page: int, n: nat, perPage: int)
    requires perPage > 0
  {
    page >= MaxPage(n, perPage)
  }

  /** On the first page, "next" is enabled exactly when the queue overflows one page. */
  lemma FirstPageNextEnabled(n: nat, perPage: int)
    requires perPage > 0
    ensures !NextDisabledAt(0, n, perPage) <==> n > perPage
  {
    var q, r := (n - 1) / perPage, (n - 1) % perPage;
    assert n - 1 == q * perPage + r && 0 <= r < perPage;
    if q >= 1 {
      assert q * perPage >= perPage;
    } else if q <= -1 {
      assert q * perPage <= -perPage;
    }
  }

  class QueueView {
    const songs: seq<Track>
    const perPage: int
    const guildId: string
    const requesterId: int
    const timeout: int
    var page: int
    var prevDisabled: bool
    var nextDisabled: bool

    /** A new view starts on page 0 with both buttons enabled, as the framework creates them. */
    constructor (songs: seq<Track>, requesterId: int, guildId: string, perPage: int := DefaultPerPage)
      requires perPage > 0
      ensures this.songs == songs && this.perPage == perPage
      ensures this.guildId == guildId && this.requesterId == requesterId
      ensures timeout == IdleTimeout && page == 0
      ensures !prevDisabled && !nextDisabled
    {
      this.songs := songs;
      this.perPage := perPage;
      this.guildId := guildId;
      this.requesterId := requesterId;
      timeout := IdleTimeout;
      page := 0;
      prevDisabled, nextDisabled := false, false;
    }

    /** Renders the current page, accumulating one line per shown track. */
    method GetEmbed() returns (e: Embed)
      requires perPage > 0
      ensures e.pageNumber == page + 1 && e.pageCount == PageCount(|songs|, perPage)
      ensures e.lines == PageLines(songs, page, perPage)
    {
      var start := page * perPage;
      var shown := PageSlice(songs, page, perPage);
      var lines: seq<Line> := [];
      var idx := 0;
      while idx < |shown|
        invariant 0 <= idx <= |shown|
        invariant |lines| == idx
        invariant forall k :: 0 <= k < idx ==> lines[k] == Line(start + 1 + k, shown[k].title)
      {
        lines := lines + [Line(start + 1 + idx, shown[idx].title)];
        idx := idx + 1;
      }
      e := Embed(page + 1, (|songs| - 1) / perPage + 1, lines);
    }

    /** Only the user who asked for the queue may navigate it. */
    function InteractionCheck(userId: int): (accepted: bool)
      reads this
      ensures accepted <==> userId == requesterId
    {
      userId == requesterId
    }

    /** Recomputes both disabled flags from the current page and re-renders. */
    method UpdateButtonsAndEmbed() returns (e: Embed)
      requires perPage > 0
      modifies this`prevDisabled, this`nextDisabled
      ensures prevDisabled == PrevDisabledAt(page)
      ensures nextDisabled == NextDisabledAt(page, |songs|, perPage)
      ensures e == Embed(page + 1, PageCount(|songs|, perPage), PageLines(songs, page, perPage))
    {
      var maxPage := (|songs| - 1) / perPage;
      prevDisabled := page <= 0;
      nextDisabled := page >= maxPage;
      e := GetEmbed();
    }

    method PrevPage() returns (e: Embed)
      requires perPage > 0
      modifies this`page, this`prevDisabled, this`nextDisabled
      ensures page == old(page) - 1
      ensures prevDisabled == PrevDisabledAt(page)
      ensures nextDisabled == NextDisabledAt(page, |songs|, perPage)
      ensures e == Embed(page + 1, PageCount(|songs|, perPage), PageLines(songs, page, perPage))
    {
      page := page - 1;
      e := UpdateButtonsAndEmbed();
    }

    method NextPage() returns (e: Embed)
      requires perPage > 0
      modifies this`page, this`prevDisabled, this`nextDisabled
      ensures page == old(page) + 1
      ensures prevDisabled == PrevDisabledAt(page)
      ensures nextDisabled == NextDisabledAt(page, |songs|, perPage)
      ensures e == Embed(page + 1, PageCount(|songs|, perPage), PageLines(songs, page, perPage))
    {
      page := page + 1;
      e := UpdateButtonsAndEmbed();
    }

    /**
     * A button press as the framework dispatches it: the interaction check
     * runs first, and a rejected press reaches no callback.
     */
    method Press(b: Button, userId: int) returns (e: Option<Embed>)
      requires perPage > 0
      modifies this`page, this`prevDisabled, this`nextDisabled
      ensures e.Some? <==> userId == requesterId
      ensures e.None? ==> page == old(page) && prevDisabled == old(prevDisabled) && nextDisabled == old(nextDisabled)
      ensures e.Some? ==> page == old(page) + (if b == Prev then -1 else 1)
      ensures e.Some? ==> prevDisabled == PrevDisabledAt(page) &&
                          nextDisabled == NextDisabledAt(page, |songs|, perPage)
      ensures e.Some? ==> e.value == Embed(page + 1, PageCount(|songs|, perPage), PageLines(songs, page, perPage))
    {
      if !InteractionCheck(userId) {
        return None;
      }
      var shown;
      if b == Prev {
        shown := PrevPage();
      } else {
        shown := NextPage();
      }
      e := Some(shown);
    }
  }

  /**
   * The buttons of a new view are not disabled until the first press, so
   * "previous" on a fresh view moves to page -1, which shows no tracks.
   */
  method PrevOnFreshView(songs: seq<Track>, requesterId: int) returns (page: int, e: Embed)
    ensures page == -1 && e.pageNumber == 0 && e.lines == []
  {
    var v := new QueueView(songs, requesterId, "");
    var shown := v.Press(Prev, requesterId);
    page, e := v.page, shown.value;
  }

  /**
   * For the same reason "next" on a fresh view moves to page 1 even when the
   * queue fits on one page; that page then shows no tracks under a title
   * "Page 2/1".
   */
  method NextOnFreshView(songs: seq<Track>, requesterId: int) returns (page: int, e: Embed)
    ensures page == 1 && e.pageNumber == 2
    ensures |songs| <= DefaultPerPage ==> e.lines == []
    ensures 1 <= |songs| <= DefaultPerPage ==> e.pageCount == 1
  {
    var v := new QueueView(songs, requesterId, "");
    var shown := v.Press(Next, requesterId);
    page, e := v.page, shown.value;
  }
}
