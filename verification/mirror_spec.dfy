/**
 Reference definitions the mirroring loop is checked against. None of them
 consults the caches: they say, from the pages alone, which pages the loop
 gets to, which items it processes, which album and track comes first for a
 given URI, where each record belongs on disk, and which asset (if any) must
 follow a metadata write. The trace views pick one kind of action out of a log.
 */
module MirrorSpec {
  import opened Maybe
  import opened Ident
  import opened Layout
  import opened Entities
  import opened Mirror

  /** How many non-empty pages there are from page i up to the first empty one. */
  function Leading(pages: seq<Page>, i: nat): nat
    decreases |pages| - i
  {
    if |PageAt(pages, i)| == 0 then 0 else 1 + Leading(pages, i + 1)
  }

  /** The items of pages i, i+1, ... up to the first empty page, in order. */
  function Processed(pages: seq<Page>, i: nat): seq<Item>
    decreases |pages| - i
  {
    if |PageAt(pages, i)| == 0 then [] else PageAt(pages, i) + Processed(pages, i + 1)
  }

  /** The page requests for n pages starting at page index i: the k-th asks for PageLimit items at offset PageLimit * (i + k). */
  function Requests(i: nat, n: nat): seq<Action> {
    seq(n, k requires 0 <= k < n => Fetch(PageLimit, PageLimit * (i + k)))
  }

  function AlbumUris(items: seq<Item>): set<string> {
    set k | 0 <= k < |items| :: items[k].track.album.uri
  }

  function TrackUris(items: seq<Item>): set<string> {
    set k | 0 <= k < |items| :: items[k].track.uri
  }

  /** The album of the first item whose album has URI u. */
  function FirstAlbum(items: seq<Item>, u: string): Option<Album> {
    if |items| == 0 then None
    else if items[0].track.album.uri == u then Some(items[0].track.album)
    else FirstAlbum(items[1..], u)
  }

  /** The first track with URI u. */
  function FirstTrack(items: seq<Item>, u: string): Option<Track> {
    if |items| == 0 then None
    else if items[0].track.uri == u then Some(items[0].track)
    else FirstTrack(items[1..], u)
  }

  /** Where a metadata record belongs: output/<album>/<album>.json or output/<album>/<track>/<track>.json. */
  function MetadataFile(cfg: Config, r: Record): File {
    match r
    case AlbumRecord(a) => File(Path(cfg.output, [AlbumId(a)]), AlbumId(a), Json)
    case TrackRecord(t) => File(Path(cfg.output, [AlbumId(t.album), TrackId(t)]), TrackId(t), Json)
  }

  /** The metadata write for a record. */
  function SaveOf(cfg: Config, r: Record): Action {
    SaveJson(MetadataFile(cfg, r), r)
  }

  /**
   The download that has to follow the metadata write of `r` into `f`: the
   first cover image when images are switched on and the album has one, the
   preview when previews are switched on and the track has one, else none.
   The asset goes next to the metadata file, with the same stem.
   */
  function AssetAfter(cfg: Config, f: File, r: Record): Option<Action> {
    match r
    case AlbumRecord(a) =>
      if cfg.albumImage && |a.images| > 0
      then Some(SaveDownload(File(f.dir, f.stem, Jpg), a.images[0].url)) else None
    case TrackRecord(t) =>
      if cfg.trackPreview && t.previewUrl.Some? && t.previewUrl.value != ""
      then Some(SaveDownload(File(f.dir, f.stem, Mp3), t.previewUrl.value)) else None
  }

  /**
   Everything written for one record: its metadata into `f`, then the asset it
   calls for, if any.
   */
  function RecordWrites(cfg: Config, f: File, r: Record): seq<Action> {
    [SaveJson(f, r)] + (match AssetAfter(cfg, f, r) case None => [] case Some(d) => [d])
  }

  /** The one album metadata write a run owes URI u among `items`: for the first album with that URI. */
  function AlbumSaveDue(cfg: Config, items: seq<Item>, u: string): seq<Action> {
    match FirstAlbum(items, u)
    case None => []
    case Some(a) => [SaveOf(cfg, AlbumRecord(a))]
  }

  /** The one track metadata write a run owes URI u among `items`: for the first track with that URI. */
  function TrackSaveDue(cfg: Config, items: seq<Item>, u: string): seq<Action> {
    match FirstTrack(items, u)
    case None => []
    case Some(t) => [SaveOf(cfg, TrackRecord(t))]
  }

  /** The two directories every item gets, item after item. */
  function ItemDirs(cfg: Config, items: seq<Item>): seq<Path> {
    if |items| == 0 then []
    else
      var t := items[0].track;
      [Path(cfg.output, [AlbumId(t.album)]), Path(cfg.output, [AlbumId(t.album), TrackId(t)])]
      + ItemDirs(cfg, items[1..])
  }

  /** The page requests of a log, in order. */
  function Fetches(log: seq<Action>): seq<Action> {
    if |log| == 0 then [] else (if log[0].Fetch? then [log[0]] else []) + Fetches(log[1..])
  }

  /** The directories a log creates, in order. */
  function Dirs(log: seq<Action>): seq<Path> {
    if |log| == 0 then [] else (if log[0].MakeDirs? then [log[0].dir] else []) + Dirs(log[1..])
  }

  /** The album metadata writes of a log for albums with URI u. */
  function AlbumSaves(log: seq<Action>, u: string): seq<Action> {
    if |log| == 0 then []
    else
      var a := log[0];
      (if a.SaveJson? && a.record.AlbumRecord? && a.record.album.uri == u then [a] else [])
      + AlbumSaves(log[1..], u)
  }

  /** The track metadata writes of a log for tracks with URI u. */
  function TrackSaves(log: seq<Action>, u: string): seq<Action> {
    if |log| == 0 then []
    else
      var a := log[0];
      (if a.SaveJson? && a.record.TrackRecord? && a.record.track.uri == u then [a] else [])
      + TrackSaves(log[1..], u)
  }

  /** Everything a log writes for tracks: track metadata and previews. */
  function TrackEffects(log: seq<Action>): seq<Action> {
    if |log| == 0 then []
    else
      var a := log[0];
      (if (a.SaveJson? && a.record.TrackRecord?) || (a.SaveDownload? && a.file.ext == Mp3) then [a] else [])
      + TrackEffects(log[1..])
  }

  /** Everything a log writes for albums: album metadata and cover images. */
  function AlbumEffects(log: seq<Action>): seq<Action> {
    if |log| == 0 then []
    else
      var a := log[0];
      (if (a.SaveJson? && a.record.AlbumRecord?) || (a.SaveDownload? && a.file.ext == Jpg) then [a] else [])
      + AlbumEffects(log[1..])
  }

  /**
   Entry i respects asset gating: a metadata write whose record calls for an
   asset is followed at once by that asset's download, and a download only
   ever comes right after the metadata write that calls for it.
   */
  predicate GatedAt(cfg: Config, log: seq<Action>, i: nat)
    requires i < |log|
  {
    && (log[i].SaveJson? && AssetAfter(cfg, log[i].file, log[i].record).Some? ==>
          i + 1 < |log| && log[i + 1] == AssetAfter(cfg, log[i].file, log[i].record).value)
    && (log[i].SaveDownload? ==>
          0 < i && log[i - 1].SaveJson? && AssetAfter(cfg, log[i - 1].file, log[i - 1].record) == Some(log[i]))
  }

  predicate WellGated(cfg: Config, log: seq<Action>) {
    forall i :: 0 <= i < |log| ==> GatedAt(cfg, log, i)
  }

  /**
   Entry i respects the layout: a metadata write goes to the record's own
   metadata file, and every file sits under the output root, in the directory
   named by its own stem, which an earlier entry of the log created.
   */
  predicate PlacedAt(cfg: Config, log: seq<Action>, i: nat)
    requires i < |log|
  {
    && (log[i].SaveJson? ==> log[i].file == MetadataFile(cfg, log[i].record))
    && (log[i].SaveJson? || log[i].SaveDownload? ==>
          && Colocated(log[i].file)
          && log[i].file.dir.root == cfg.output
          && MakeDirs(log[i].file.dir) in log[..i])
  }

  predicate WellPlaced(cfg: Config, log: seq<Action>) {
    forall i :: 0 <= i < |log| ==> PlacedAt(cfg, log, i)
  }
}
