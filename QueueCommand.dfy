/** `ViewQueueCommand.run`: one page of the guild's queue, the song now
    playing with its progress, and the total queue time. It only reads the
    registry. */
module QueueCommand {
  import opened Admission
  import opened MusicRegistry

  /** `PAGINATED_ITEMS`: songs per page. */
  const PageSize: nat := 5

  /** The page shown when none is given. */
  const DefaultPage: int := 1

  datatype Page = Page(items: seq<SongInfo>, page: int, maxPage: int)

  function Min(a: int, b: int): int {
    if a <= b then a else b
  }

  /** `util.paginate(items, page, pageLength)` of the command framework:
      the requested page clamped to `[1, maxPage]`, and that page's slice
      (the whole list when it fits on one page). */
  function Paginate(items: seq<SongInfo>, page: int, pageLength: nat): Page
    requires pageLength > 0 && |items| > 0
  {
    var maxPage := (|items| + pageLength - 1) / pageLength;
    var p := if page < 1 then 1 else if page > maxPage then maxPage else page;
    var start := (p - 1) * pageLength;
    Page(if |items| > pageLength then items[start..Min(start + pageLength, |items|)] else items, p, maxPage)
  }

  /** `maxPage` is the number of pages the queue needs at the command's
      page size. */
  lemma MaxPageIsPageCount(items: seq<SongInfo>, page: int)
    requires |items| > 0
    ensures var p := Paginate(items, page, PageSize);
      p.maxPage >= 1 && (p.maxPage - 1) * PageSize < |items| <= p.maxPage * PageSize
  {
  }

  /** The page shown lies in `[1, maxPage]`, is the requested one when that
      exists, and holds the songs from `(page - 1) * 5` on: at most five, at
      least one. */
  lemma PaginateShowsRequestedSlice(items: seq<SongInfo>, page: int)
    requires |items| > 0
    ensures var p := Paginate(items, page, PageSize);
      && 1 <= p.page <= p.maxPage
      && (1 <= page <= p.maxPage ==> p.page == page)
      && p.items == items[(p.page - 1) * PageSize..Min(p.page * PageSize, |items|)]
      && 1 <= |p.items| <= PageSize
  {
    MaxPageIsPageCount(items, page);
    var p := Paginate(items, page, PageSize);
    if |items| <= PageSize {
      assert p.maxPage == 1;
      assert items[0..|items|] == items;
    }
  }

  /** With no page given, the first page is shown: the first five songs,
      or all of them when there are fewer. */
  lemma DefaultPageShowsFirstSongs(items: seq<SongInfo>)
    requires |items| > 0
    ensures var p := Paginate(items, DefaultPage, PageSize);
      p.page == 1 && p.items == items[..Min(PageSize, |items|)]
  {
    PaginateShowsRequestedSlice(items, DefaultPage);
  }

  /** The songs on pages 1 to k, one after the other. */
  function PagesUpTo(items: seq<SongInfo>, k: nat): seq<SongInfo>
    requires |items| > 0
  {
    if k == 0 then [] else PagesUpTo(items, k - 1) + Paginate(items, k, PageSize).items
  }

  lemma SliceJoin<T>(s: seq<T>, lo: nat, hi: nat)
    requires lo <= hi <= |s|
    ensures s[..lo] + s[lo..hi] == s[..hi]
  {
  }

  /** Paging through the queue shows every song once, in order: pages 1 to
      k hold exactly the first k pages' worth of songs, and all pages
      together hold the whole queue. */
  lemma {:induction false} PagesCoverQueue(items: seq<SongInfo>, k: nat)
    requires |items| > 0
    requires k <= Paginate(items, 1, PageSize).maxPage
    ensures PagesUpTo(items, k) == items[..Min(k * PageSize, |items|)]
    ensures k == Paginate(items, 1, PageSize).maxPage ==> PagesUpTo(items, k) == items
  {
    MaxPageIsPageCount(items, 1);
    if k > 0 {
      var lo := (k - 1) * PageSize;
      var hi := Min(k * PageSize, |items|);
      PagesCoverQueue(items, k - 1);
      assert Min(lo, |items|) == lo;
      var before := items[..lo];
      assert PagesUpTo(items, k - 1) == before;
      PaginateShowsRequestedSlice(items, k);
      var page := items[lo..hi];
      assert Paginate(items, k, PageSize).items == page;
      SliceJoin(items, lo, hi);
    }
    if k == Paginate(items, 1, PageSize).maxPage {
      assert items[..|items|] == items;
    }
  }

  /** `songs.reduce((prev, song) => prev + song.length, 0)`. */
  function TotalLength(infos: seq<SongInfo>): nat
    decreases |infos|
  {
    if |infos| == 0 then 0 else TotalLength(infos[..|infos| - 1]) + infos[|infos| - 1].lengthSeconds
  }

  /** The total of two lists back to back is the sum of their totals. */
  lemma {:induction false} TotalLengthAppend(a: seq<SongInfo>, b: seq<SongInfo>)
    ensures TotalLength(a + b) == TotalLength(a) + TotalLength(b)
    decreases |b|
  {
    if |b| == 0 {
      assert a + b == a;
    } else {
      var ab := a + b;
      assert ab[..|ab| - 1] == a + b[..|b| - 1];
      TotalLengthAppend(a, b[..|b| - 1]);
    }
  }

  /** The queue time after the head finishes: the total minus its length. */
  lemma TotalLengthAfterShift(infos: seq<SongInfo>)
    requires |infos| > 0
    ensures TotalLength(infos[1..]) == TotalLength(infos) - infos[0].lengthSeconds
  {
    TotalLengthAppend([infos[0]], infos[1..]);
    assert [infos[0]] + infos[1..] == infos;
    assert [infos[0]][..0] == [];
  }

  datatype QueueView =
    | NoSongs
    | QueuePage(page: Page, nowPlaying: SongInfo, progressLabel: string, currentTime: real,
                totalSeconds: nat, showPageHint: bool)

  /** `ViewQueueCommand.run` for the given page; `streamTimeMs` is what the
      head's dispatcher reports as its stream time. */
  function View(reg: Registry, g: GuildId, page: int, streamTimeMs: nat): (v: QueueView)
    reads reg, reg.queues.Values
    reads if g in reg.queues && |reg.queues[g].songs| > 0 then {reg.queues[g].songs[0]} else {}
    requires reg.Valid()
    ensures v.NoSongs? <==> g !in reg.queues
    ensures v.QueuePage? ==>
      var q := reg.queues[g];
      var head := q.songs[0];
      && v.nowPlaying == head.info
      && (v.progressLabel == "Paused: " <==> !head.playing)
      && (v.progressLabel == "" <==> head.playing)
      && (head.dispatcher == null ==> v.currentTime == 0.0)
      && (head.dispatcher != null ==> v.currentTime == streamTimeMs as real / 1000.0)
      && v.totalSeconds == TotalLength(InfosOf(q.songs))
      && v.page == Paginate(InfosOf(q.songs), page, PageSize)
      && (v.showPageHint <==> |q.songs| > PageSize)
  {
    if g !in reg.queues then NoSongs
    else
      var q := reg.queues[g];
      var head := q.songs[0];
      var paginated := Paginate(InfosOf(q.songs), page, PageSize);
      MaxPageIsPageCount(InfosOf(q.songs), page);
      QueuePage(paginated, head.info,
                if !head.playing then "Paused: " else "",
                if head.dispatcher != null then streamTimeMs as real / 1000.0 else 0.0,
                TotalLength(InfosOf(q.songs)),
                paginated.maxPage > 1)
  }
}
