/**
 Worked examples of the mirroring loop on small saved-tracks libraries, and
 the textual form of the metadata paths.
 */
module MirrorExamples {
  import opened Maybe
  import opened Ident
  import opened Layout
  import opened Entities
  import opened Mirror
  import opened MirrorSpec
  import opened MirrorProofs
  import opened MirrorRun

  /**
   The textual paths of the metadata files: output/<album id>/<album id>.json
   for an album and output/<album id>/<track id>/<track id>.json for a track,
   each identifier rendered as count:uri:name.
   */
  lemma MetadataPathText(cfg: Config, a: Album, t: Track)
    ensures var ai := AlbumId(a).Text();
      MetadataFile(cfg, AlbumRecord(a)).Text() == [cfg.output, ai, ai + ".json"]
    ensures var ai := AlbumId(t.album).Text();
      var ti := TrackId(t).Text();
      MetadataFile(cfg, TrackRecord(t)).Text() == [cfg.output, ai, ti, ti + ".json"]
  {
    EntityFileColocated(Path(cfg.output, []), AlbumId(a), Json);
    assert Join(Path(cfg.output, []), AlbumId(a)) == Path(cfg.output, [AlbumId(a)]);
    var ad := Path(cfg.output, [AlbumId(t.album)]);
    EntityFileColocated(ad, TrackId(t), Json);
    assert Join(ad, TrackId(t)) == Path(cfg.output, [AlbumId(t.album), TrackId(t)]);
    assert ad.Text() == [cfg.output, AlbumId(t.album).Text()];
  }

  const DemoAlbum := Album("album:1", "Demo Album", 1, [])
  const DemoTrack := Track("track:1", "Demo Track", 1, None, DemoAlbum)
  const DemoConfig := Config("tracks", false, false)

  /**
   One page holding one track of a one-track album, no images, no preview,
   both switches off: the run requests offset 0, makes the album and track
   directories, writes the album and track metadata, then requests offset 20
   and stops. The album directory is named "01:album:1:Demo Album", the track
   directory inside it "01:track:1:Demo Track", and each metadata file carries
   its directory's name plus ".json".
   */
  lemma SingleTrackRun()
    ensures var aid := Id(1, "album:1", "Demo Album");
      var tid := Id(1, "track:1", "Demo Track");
      var ad := Path("tracks", [aid]);
      var td := Path("tracks", [aid, tid]);
      Run(DemoConfig, [[Item(DemoTrack)]]).log
        == [ Fetch(20, 0),
             MakeDirs(ad), MakeDirs(td),
             SaveJson(File(ad, aid, Json), AlbumRecord(DemoAlbum)),
             SaveJson(File(td, tid, Json), TrackRecord(DemoTrack)),
             Fetch(20, 20) ]
    ensures Path("tracks", [Id(1, "album:1", "Demo Album")]).Text() == ["tracks", "01:album:1:Demo Album"]
  {
    var pages := [[Item(DemoTrack)]];
    var c0 := Caches({}, {});
    var it := Item(DemoTrack);
    assert PageAt(pages, 0) == [it];
    assert PageAt(pages, 1) == [];
    var s := ProcessItem(DemoConfig, c0, it);
    assert [it][..0] == [];
    assert ProcessPage(DemoConfig, c0, [it]) == Step([] + s.log, s.caches);
    assert Loop(DemoConfig, pages, 1, s.caches) == Step([Fetch(20, 20)], s.caches);
    var aid, tid := AlbumId(DemoAlbum), TrackId(DemoTrack);
    var ad, td := Path("tracks", [aid]), Path("tracks", [aid, tid]);
    assert Join(Path("tracks", []), aid) == ad;
    assert Join(ad, tid) == td;
    assert s.log == [MakeDirs(ad), MakeDirs(td), SaveJson(File(ad, aid, Json), AlbumRecord(DemoAlbum)),
                     SaveJson(File(td, tid, Json), TrackRecord(DemoTrack))];
    assert Loop(DemoConfig, pages, 0, c0).log == [Fetch(20, 0)] + ([] + s.log) + [Fetch(20, 20)];
    UuidExample();
    assert ad.Text() == ["tracks", aid.Text()];
  }

  /**
   The names of the worked example on disk: the track identifier, and the
   full component paths of the album and track metadata files.
   */
  lemma DemoPaths()
    ensures TrackId(DemoTrack).Text() == "01:track:1:Demo Track"
    ensures MetadataFile(DemoConfig, AlbumRecord(DemoAlbum)).Text()
         == ["tracks", "01:album:1:Demo Album", "01:album:1:Demo Album.json"]
    ensures MetadataFile(DemoConfig, TrackRecord(DemoTrack)).Text()
         == ["tracks", "01:album:1:Demo Album", "01:track:1:Demo Track", "01:track:1:Demo Track.json"]
  {
    UuidExample();
    FormatCountExamples();
    var ai, ti := AlbumId(DemoAlbum).Text(), TrackId(DemoTrack).Text();
    assert ai == "01:album:1:Demo Album";
    assert ti == "01:track:1:Demo Track";
    assert ai + ".json" == "01:album:1:Demo Album.json";
    assert ti + ".json" == "01:track:1:Demo Track.json";
    MetadataPathText(DemoConfig, DemoAlbum, DemoTrack);
  }

  /**
   Two saved tracks of one album on one page: the album metadata is written
   once, for the first item, and each track's metadata once, although the
   second item's album was already cached.
   */
  lemma SharedAlbumRun()
    ensures var t2 := Track("track:2", "Other Track", 2, None, DemoAlbum);
      var pages := [[Item(DemoTrack), Item(t2)]];
      && AlbumSaves(Run(DemoConfig, pages).log, "album:1") == [SaveOf(DemoConfig, AlbumRecord(DemoAlbum))]
      && TrackSaves(Run(DemoConfig, pages).log, "track:1") == [SaveOf(DemoConfig, TrackRecord(DemoTrack))]
      && TrackSaves(Run(DemoConfig, pages).log, "track:2") == [SaveOf(DemoConfig, TrackRecord(t2))]
  {
    var t2 := Track("track:2", "Other Track", 2, None, DemoAlbum);
    var items := [Item(DemoTrack), Item(t2)];
    var pages := [items];
    assert PageAt(pages, 0) == items;
    assert PageAt(pages, 1) == [];
    assert Processed(pages, 1) == [];
    assert Processed(pages, 0) == items;
    assert items[1..] == [Item(t2)];
    assert FirstAlbum(items, "album:1") == Some(DemoAlbum);
    assert FirstTrack(items, "track:1") == Some(DemoTrack);
    assert FirstTrack([Item(t2)], "track:2") == Some(t2);
    assert FirstTrack(items, "track:2") == Some(t2);
    RunAlbumWrittenOnce(DemoConfig, pages, "album:1");
    RunTrackWrittenOnce(DemoConfig, pages, "track:1");
    RunTrackWrittenOnce(DemoConfig, pages, "track:2");
  }
}
