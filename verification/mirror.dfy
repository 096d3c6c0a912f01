/**
 The saved-tracks mirroring loop: fetch pages of 20 at increasing offsets until
 an empty page comes back; for every item make the album and track directories,
 then write album metadata (and optionally the cover image) the first time the
 album URI is seen, and independently track metadata (and optionally the preview)
 the first time the track URI is seen.

 The remote page source is a finite sequence of pages: page i answers the request
 at offset 20 * i, and every index at or past its end answers with an empty page.
 */
module Mirror {
  import opened Maybe
  import opened Ident
  import opened Layout
  import opened Entities

  /** Page size of every request. */
  const PageLimit: nat := 20

  /** The album identifier: `total_tracks`, `uri`, `name`. */
  function AlbumId(a: Album): Id {
    Id(a.totalTracks, a.uri, a.name)
  }

  /** The track identifier: `track_number`, `uri`, `name`. */
  function TrackId(t: Track): Id {
    Id(t.trackNumber, t.uri, t.name)
  }

  /** Python truthiness of `album['images']`: a non-empty list. */
  predicate HasImage(a: Album) {
    |a.images| > 0
  }

  /** Python truthiness of `track['preview_url']`: neither null nor the empty string. */
  predicate HasPreview(t: Track) {
    t.previewUrl.Some? && t.previewUrl.value != ""
  }

  /** The page the source answers at page index i (offset PageLimit * i). */
  function PageAt(pages: seq<Page>, i: nat): (p: Page)
    ensures i >= |pages| ==> p == []
  {
    if i < |pages| then pages[i] else []
  }

  /** Album writes for one item: metadata, then the cover image when enabled and present. */
  function AlbumWrites(cfg: Config, dir: Path, a: Album): seq<Action> {
    var id := AlbumId(a);
    [SaveJson(File(dir, id, Json), AlbumRecord(a))]
    + (if cfg.albumImage && HasImage(a) then [SaveDownload(File(dir, id, Jpg), a.images[0].url)] else [])
  }

  /** Track writes for one item: metadata, then the preview when enabled and present. */
  function TrackWrites(cfg: Config, dir: Path, t: Track): seq<Action> {
    var id := TrackId(t);
    [SaveJson(File(dir, id, Json), TrackRecord(t))]
    + (if cfg.trackPreview && HasPreview(t) then [SaveDownload(File(dir, id, Mp3), t.previewUrl.value)] else [])
  }

  /** The body of the inner `for item in resp['items']` loop. */
  function ProcessItem(cfg: Config, c: Caches, it: Item): Step
  {
    var track := it.track;
    var album := track.album;
    var trackId := TrackId(track);
    var albumId := AlbumId(album);
    var albumDir := Join(Path(cfg.output, []), albumId);
    var trackDir := Join(albumDir, trackId);
    var albumLog := if album.uri in c.albums then [] else AlbumWrites(cfg, albumDir, album);
    var trackLog := if track.uri in c.tracks then [] else TrackWrites(cfg, trackDir, track);
    var log := [MakeDirs(albumDir), MakeDirs(trackDir)] + albumLog + trackLog;
    Step(log, Caches(c.albums + {album.uri}, c.tracks + {track.uri}))
  }

  /** All items of one page, in order, threading the caches: the items before the last, then the last. */
  function ProcessPage(cfg: Config, c: Caches, items: seq<Item>): Step
    decreases |items|
  {
    if |items| == 0 then Step([], c)
    else
      var before := ProcessPage(cfg, c, items[..|items| - 1]);
      var last := ProcessItem(cfg, before.caches, items[|items| - 1]);
      Step(before.log + last.log, last.caches)
  }

  /**
   The `while True` loop from page index i on: fetch at offset PageLimit * i,
   stop on an empty page, otherwise process the page and move to the next offset.
   */
  function Loop(cfg: Config, pages: seq<Page>, i: nat, c: Caches): Step
    decreases |pages| - i
  {
    var fetch := Fetch(PageLimit, PageLimit * i);
    var page := PageAt(pages, i);
    if |page| == 0 then Step([fetch], c)
    else
      var p := ProcessPage(cfg, c, page);
      var r := Loop(cfg, pages, i + 1, p.caches);
      Step([fetch] + p.log + r.log, r.caches)
  }

  /** A whole run: offset 0, both caches empty. */
  function Run(cfg: Config, pages: seq<Page>): Step
  {
    Loop(cfg, pages, 0, Caches({}, {}))
  }

  /** The first n turns of the loop, as a fold over pages 0 .. n-1 (each fetched, then processed). */
  function Turns(cfg: Config, pages: seq<Page>, n: nat): Step
  {
    if n == 0 then Step([], Caches({}, {}))
    else
      var d := Turns(cfg, pages, n - 1);
      var p := ProcessPage(cfg, d.caches, PageAt(pages, n - 1));
      Step(d.log + [Fetch(PageLimit, PageLimit * (n - 1))] + p.log, p.caches)
  }

  /**
   Once n non-empty pages have been handled, the run is what those n turns
   logged followed by the loop from page n with the caches they left.
   */
  lemma {:induction false} TurnsThenLoop(cfg: Config, pages: seq<Page>, n: nat)
    requires forall k :: 0 <= k < n ==> |PageAt(pages, k)| > 0
    ensures var d := Turns(cfg, pages, n);
      d.log + Loop(cfg, pages, n, d.caches).log == Run(cfg, pages).log &&
      Loop(cfg, pages, n, d.caches).caches == Run(cfg, pages).caches
    decreases n
  {
    if n > 0 {
      TurnsThenLoop(cfg, pages, n - 1);
      var d := Turns(cfg, pages, n - 1);
      var page := PageAt(pages, n - 1);
      var p := ProcessPage(cfg, d.caches, page);
      var f := Fetch(PageLimit, PageLimit * (n - 1));
      var r := Loop(cfg, pages, n, p.caches);
      assert |page| > 0;
      assert Turns(cfg, pages, n) == Step(d.log + [f] + p.log, p.caches);
      assert Loop(cfg, pages, n - 1, d.caches) == Step([f] + p.log + r.log, r.caches);
      ConcatAssoc(d.log, [f] + p.log, r.log);
      assert d.log + [f] + p.log == d.log + ([f] + p.log);
    }
  }

  lemma ConcatAssoc<T>(a: seq<T>, b: seq<T>, c: seq<T>)
    ensures a + (b + c) == (a + b) + c
  {
  }

  /** When page i is the first empty one, the run is the first i turns and one last request. */
  lemma RunStopsAt(cfg: Config, pages: seq<Page>, i: nat)
    requires forall k :: 0 <= k < i ==> |PageAt(pages, k)| > 0
    requires |PageAt(pages, i)| == 0
    ensures var d := Turns(cfg, pages, i);
      Run(cfg, pages) == Step(d.log + [Fetch(PageLimit, PageLimit * i)], d.caches)
  {
    TurnsThenLoop(cfg, pages, i);
    var d := Turns(cfg, pages, i);
    assert Loop(cfg, pages, i, d.caches) == Step([Fetch(PageLimit, PageLimit * i)], d.caches);
  }

  /**
   The loop as the source writes it: an offset variable advanced by the page
   size, an inner loop over the items of each page, and a break on the first
   empty page. It computes what Run describes.
   */
  method MirrorSavedTracks(cfg: Config, pages: seq<Page>) returns (log: seq<Action>, caches: Caches)
    ensures Step(log, caches) == Run(cfg, pages)
  {
    var limit := PageLimit;
    var offset := 0;
    var i := 0;
    log := [];
    caches := Caches({}, {});
    while true
      invariant i <= |pages|
      invariant limit == PageLimit && offset == PageLimit * i
      invariant forall k :: 0 <= k < i ==> |PageAt(pages, k)| > 0
      invariant Step(log, caches) == Turns(cfg, pages, i)
      decreases |pages| - i
    {
      var items := PageAt(pages, i);
      if |items| == 0 {
        RunStopsAt(cfg, pages, i);
        log := log + [Fetch(limit, offset)];
        break;
      }
      log := log + [Fetch(limit, offset)];
      var pageLog, cur := MirrorPage(cfg, caches, items);
      log := log + pageLog;
      caches := cur;
      offset := offset + limit;
      i := i + 1;
    }
  }

  /** The inner `for item in resp['items']` loop over one page. */
  method MirrorPage(cfg: Config, c: Caches, items: seq<Item>) returns (log: seq<Action>, caches: Caches)
    ensures Step(log, caches) == ProcessPage(cfg, c, items)
  {
    log := [];
    caches := c;
    for j := 0 to |items|
      invariant Step(log, caches) == ProcessPage(cfg, c, items[..j])
    {
      var s := ProcessItem(cfg, caches, items[j]);
      assert items[..j + 1][..j] == items[..j];
      log := log + s.log;
      caches := s.caches;
    }
    assert items[..|items|] == items;
  }
}
