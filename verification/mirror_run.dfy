/**
 What a whole run of the mirroring loop does, stated against the reference
 definitions: which pages it requests, which directories it makes, which
 metadata it writes and how often, which assets it downloads, and where every
 file lands.
 */
module MirrorRun {
  import opened Maybe
  import opened Ident
  import opened Layout
  import opened Entities
  import opened Mirror
  import opened MirrorSpec
  import opened MirrorProofs

  /**
   The run requests pages at offsets 0, 20, 40, ... with limit 20, one request
   per non-empty page it meets and one more for the empty page that ends it.
   */
  lemma RunRequests(cfg: Config, pages: seq<Page>)
    ensures Fetches(Run(cfg, pages).log) == Requests(0, Leading(pages, 0) + 1)
    ensures forall j :: 0 <= j < Leading(pages, 0) ==> |PageAt(pages, j)| > 0
    ensures |PageAt(pages, Leading(pages, 0))| == 0
  {
    LoopFetches(cfg, pages, 0, Caches({}, {}));
    LeadingShape(pages, 0);
  }

  /** With N pages, all non-empty, the run makes N + 1 requests: offsets 0, 20, ..., 20 * N. */
  lemma RunRequestsFullPages(cfg: Config, pages: seq<Page>)
    requires forall k :: 0 <= k < |pages| ==> |pages[k]| > 0
    ensures Fetches(Run(cfg, pages).log) == Requests(0, |pages| + 1)
    ensures |Fetches(Run(cfg, pages).log)| == |pages| + 1
    ensures Fetches(Run(cfg, pages).log)[|pages|] == Fetch(20, 20 * |pages|)
  {
    RunRequests(cfg, pages);
    LeadingAllFull(pages, 0);
  }

  /** At the end of a run the caches hold exactly the album and track URIs of the items it processed. */
  lemma RunCaches(cfg: Config, pages: seq<Page>)
    ensures Run(cfg, pages).caches
         == Caches(AlbumUris(Processed(pages, 0)), TrackUris(Processed(pages, 0)))
  {
    LoopCaches(cfg, pages, 0, Caches({}, {}));
  }

  /** The caches never lose a URI: whatever the loop starts with is still there when it stops. */
  lemma CachesOnlyGrow(cfg: Config, pages: seq<Page>, i: nat, c: Caches)
    ensures c.albums <= Loop(cfg, pages, i, c).caches.albums
    ensures c.tracks <= Loop(cfg, pages, i, c).caches.tracks
  {
    LoopCaches(cfg, pages, i, c);
  }

  /**
   Directories are made for every processed item, cached or not: the album
   directory, then the track directory, item after item.
   */
  lemma RunDirs(cfg: Config, pages: seq<Page>)
    ensures Dirs(Run(cfg, pages).log) == ItemDirs(cfg, Processed(pages, 0))
  {
    LoopDirs(cfg, pages, 0, Caches({}, {}));
  }

  /**
   Album metadata for URI u is written at most once in a run: exactly once if
   some processed item's album has URI u, with the first such album, else never.
   */
  lemma RunAlbumWrittenOnce(cfg: Config, pages: seq<Page>, u: string)
    ensures AlbumSaves(Run(cfg, pages).log, u) == AlbumSaveDue(cfg, Processed(pages, 0), u)
    ensures |AlbumSaves(Run(cfg, pages).log, u)| == if u in AlbumUris(Processed(pages, 0)) then 1 else 0
  {
    LoopAlbumSaves(cfg, pages, 0, Caches({}, {}), u);
    FirstAlbumFound(Processed(pages, 0), u);
  }

  /**
   Track metadata for URI u is written at most once in a run: exactly once if
   some processed item has track URI u, with the first such track, else never,
   whether or not that item's album had been seen before.
   */
  lemma RunTrackWrittenOnce(cfg: Config, pages: seq<Page>, u: string)
    ensures TrackSaves(Run(cfg, pages).log, u) == TrackSaveDue(cfg, Processed(pages, 0), u)
    ensures |TrackSaves(Run(cfg, pages).log, u)| == if u in TrackUris(Processed(pages, 0)) then 1 else 0
  {
    LoopTrackSaves(cfg, pages, 0, Caches({}, {}), u);
    FirstTrackFound(Processed(pages, 0), u);
  }

  /**
   Track writes do not depend on the album cache: a run that started with any
   album URIs already cached writes exactly the same track metadata and previews.
   */
  lemma RunTracksIgnoreAlbumCache(cfg: Config, pages: seq<Page>, albums: set<string>)
    ensures TrackEffects(Loop(cfg, pages, 0, Caches(albums, {})).log) == TrackEffects(Run(cfg, pages).log)
  {
    LoopTrackEffects(cfg, pages, 0, Caches(albums, {}), Caches({}, {}));
  }

  /**
   Album writes do not depend on the track cache: a run that started with any
   track URIs already cached writes exactly the same album metadata and covers.
   */
  lemma RunAlbumsIgnoreTrackCache(cfg: Config, pages: seq<Page>, tracks: set<string>)
    ensures AlbumEffects(Loop(cfg, pages, 0, Caches({}, tracks)).log) == AlbumEffects(Run(cfg, pages).log)
  {
    LoopAlbumEffects(cfg, pages, 0, Caches({}, tracks), Caches({}, {}));
  }

  /** A whole run's log respects the layout and the asset gating. */
  lemma RunWellFormed(cfg: Config, pages: seq<Page>)
    ensures WellPlaced(cfg, Run(cfg, pages).log)
    ensures WellGated(cfg, Run(cfg, pages).log)
  {
    LoopWellFormed(cfg, pages, 0, Caches({}, {}));
  }

  /**
   The download at entry k is justified: it comes right after a metadata
   write, its switch is on and the asset exists; a cover is the album's first
   image, saved as .jpg, and a preview is the track's preview URL, saved as .mp3.
   */
  predicate DownloadJustified(cfg: Config, l: seq<Action>, k: nat)
    requires k < |l|
  {
    && l[k].SaveDownload? && 0 < k && l[k - 1].SaveJson?
    && (l[k - 1].record.AlbumRecord? ==>
          var a := l[k - 1].record.album;
          cfg.albumImage && HasImage(a) && l[k].url == a.images[0].url && l[k].file.ext == Jpg)
    && (l[k - 1].record.TrackRecord? ==>
          var t := l[k - 1].record.track;
          cfg.trackPreview && HasPreview(t) && l[k].url == t.previewUrl.value && l[k].file.ext == Mp3)
  }

  /** Every download of a run is justified by the metadata write just before it. */
  lemma RunDownloads(cfg: Config, pages: seq<Page>)
    ensures var l := Run(cfg, pages).log;
      forall k :: 0 <= k < |l| && l[k].SaveDownload? ==> DownloadJustified(cfg, l, k)
  {
    RunWellFormed(cfg, pages);
    var l := Run(cfg, pages).log;
    forall k | 0 <= k < |l| && l[k].SaveDownload?
      ensures DownloadJustified(cfg, l, k)
    {
      assert GatedAt(cfg, l, k);
    }
  }

  /** With both switches off a run downloads nothing. */
  lemma RunNoDownloadsWhenOff(cfg: Config, pages: seq<Page>)
    requires !cfg.albumImage && !cfg.trackPreview
    ensures forall k :: 0 <= k < |Run(cfg, pages).log| ==> !Run(cfg, pages).log[k].SaveDownload?
  {
    RunDownloads(cfg, pages);
    var l := Run(cfg, pages).log;
    forall k | 0 <= k < |l| ensures !l[k].SaveDownload? {
      assert l[k].SaveDownload? ==> DownloadJustified(cfg, l, k);
    }
  }

  /**
   Every file a run writes lies under the output root, in a directory the run
   made earlier, and its name is that directory's name plus an extension.
   */
  lemma RunPathStems(cfg: Config, pages: seq<Page>)
    ensures var l := Run(cfg, pages).log;
      forall k :: 0 <= k < |l| && (l[k].SaveJson? || l[k].SaveDownload?) ==>
        var p := l[k].file.Text();
        && |p| >= 2 && p[0] == cfg.output
        && StripExt(p[|p| - 1], l[k].file.ext) == Some(p[|p| - 2])
        && MakeDirs(l[k].file.dir) in l[..k]
  {
    RunWellFormed(cfg, pages);
    var l := Run(cfg, pages).log;
    forall k | 0 <= k < |l| && (l[k].SaveJson? || l[k].SaveDownload?)
      ensures var p := l[k].file.Text();
        && |p| >= 2 && p[0] == cfg.output
        && StripExt(p[|p| - 1], l[k].file.ext) == Some(p[|p| - 2])
        && MakeDirs(l[k].file.dir) in l[..k]
    {
      assert PlacedAt(cfg, l, k);
      PathSharesStem(l[k].file);
    }
  }
}
