/**
 Properties of the mirroring loop, proved against the reference definitions
 of MirrorSpec: for one item, for one page, and for a whole run.
 */
module MirrorProofs {
  import opened Maybe
  import opened Ident
  import opened Layout
  import opened Entities
  import opened Mirror
  import opened MirrorSpec

  // ---------------------------------------------------------------------------
  // Trace views distribute over concatenation

  lemma {:induction false} FetchesConcat(a: seq<Action>, b: seq<Action>)
    ensures Fetches(a + b) == Fetches(a) + Fetches(b)
    decreases |a|
  {
    if |a| == 0 {
      assert a + b == b;
    } else {
      var h := if a[0].Fetch? then [a[0]] else [];
      assert (a + b)[0] == a[0];
      assert (a + b)[1..] == a[1..] + b;
      FetchesConcat(a[1..], b);
      calc {
        Fetches(a + b);
        h + Fetches(a[1..] + b);
        h + (Fetches(a[1..]) + Fetches(b));
        (h + Fetches(a[1..])) + Fetches(b);
      }
    }
  }

  lemma {:induction false} DirsConcat(a: seq<Action>, b: seq<Action>)
    ensures Dirs(a + b) == Dirs(a) + Dirs(b)
    decreases |a|
  {
    if |a| == 0 {
      assert a + b == b;
    } else {
      var h := if a[0].MakeDirs? then [a[0].dir] else [];
      assert (a + b)[0] == a[0];
      assert (a + b)[1..] == a[1..] + b;
      DirsConcat(a[1..], b);
      calc {
        Dirs(a + b);
        h + Dirs(a[1..] + b);
        h + (Dirs(a[1..]) + Dirs(b));
        (h + Dirs(a[1..])) + Dirs(b);
      }
    }
  }

  lemma {:induction false} AlbumSavesConcat(a: seq<Action>, b: seq<Action>, u: string)
    ensures AlbumSaves(a + b, u) == AlbumSaves(a, u) + AlbumSaves(b, u)
    decreases |a|
  {
    if |a| == 0 {
      assert a + b == b;
    } else {
      var h := if a[0].SaveJson? && a[0].record.AlbumRecord? && a[0].record.album.uri == u then [a[0]] else [];
      assert (a + b)[0] == a[0];
      assert (a + b)[1..] == a[1..] + b;
      AlbumSavesConcat(a[1..], b, u);
      calc {
        AlbumSaves(a + b, u);
        h + AlbumSaves(a[1..] + b, u);
        h + (AlbumSaves(a[1..], u) + AlbumSaves(b, u));
        (h + AlbumSaves(a[1..], u)) + AlbumSaves(b, u);
      }
    }
  }

  lemma {:induction false} TrackSavesConcat(a: seq<Action>, b: seq<Action>, u: string)
    ensures TrackSaves(a + b, u) == TrackSaves(a, u) + TrackSaves(b, u)
    decreases |a|
  {
    if |a| == 0 {
      assert a + b == b;
    } else {
      var h := if a[0].SaveJson? && a[0].record.TrackRecord? && a[0].record.track.uri == u then [a[0]] else [];
      assert (a + b)[0] == a[0];
      assert (a + b)[1..] == a[1..] + b;
      TrackSavesConcat(a[1..], b, u);
      calc {
        TrackSaves(a + b, u);
        h + TrackSaves(a[1..] + b, u);
        h + (TrackSaves(a[1..], u) + TrackSaves(b, u));
        (h + TrackSaves(a[1..], u)) + TrackSaves(b, u);
      }
    }
  }

  lemma {:induction false} TrackEffectsConcat(a: seq<Action>, b: seq<Action>)
    ensures TrackEffects(a + b) == TrackEffects(a) + TrackEffects(b)
    decreases |a|
  {
    if |a| == 0 {
      assert a + b == b;
    } else {
      var h := if (a[0].SaveJson? && a[0].record.TrackRecord?) || (a[0].SaveDownload? && a[0].file.ext == Mp3) then [a[0]] else [];
      assert (a + b)[0] == a[0];
      assert (a + b)[1..] == a[1..] + b;
      TrackEffectsConcat(a[1..], b);
      calc {
        TrackEffects(a + b);
        h + TrackEffects(a[1..] + b);
        h + (TrackEffects(a[1..]) + TrackEffects(b));
        (h + TrackEffects(a[1..])) + TrackEffects(b);
      }
    }
  }

  lemma {:induction false} AlbumEffectsConcat(a: seq<Action>, b: seq<Action>)
    ensures AlbumEffects(a + b) == AlbumEffects(a) + AlbumEffects(b)
    decreases |a|
  {
    if |a| == 0 {
      assert a + b == b;
    } else {
      var h := if (a[0].SaveJson? && a[0].record.AlbumRecord?) || (a[0].SaveDownload? && a[0].file.ext == Jpg) then [a[0]] else [];
      assert (a + b)[0] == a[0];
      assert (a + b)[1..] == a[1..] + b;
      AlbumEffectsConcat(a[1..], b);
      calc {
        AlbumEffects(a + b);
        h + AlbumEffects(a[1..] + b);
        h + (AlbumEffects(a[1..]) + AlbumEffects(b));
        (h + AlbumEffects(a[1..])) + AlbumEffects(b);
      }
    }
  }

  /** All trace views of a two-part log split along the parts. */
  lemma ViewsConcat(a: seq<Action>, b: seq<Action>)
    ensures Fetches(a + b) == Fetches(a) + Fetches(b)
    ensures Dirs(a + b) == Dirs(a) + Dirs(b)
    ensures forall u :: AlbumSaves(a + b, u) == AlbumSaves(a, u) + AlbumSaves(b, u)
    ensures forall u :: TrackSaves(a + b, u) == TrackSaves(a, u) + TrackSaves(b, u)
    ensures TrackEffects(a + b) == TrackEffects(a) + TrackEffects(b)
    ensures AlbumEffects(a + b) == AlbumEffects(a) + AlbumEffects(b)
  {
    FetchesConcat(a, b);
    DirsConcat(a, b);
    forall u ensures AlbumSaves(a + b, u) == AlbumSaves(a, u) + AlbumSaves(b, u) {
      AlbumSavesConcat(a, b, u);
    }
    forall u ensures TrackSaves(a + b, u) == TrackSaves(a, u) + TrackSaves(b, u) {
      TrackSavesConcat(a, b, u);
    }
    TrackEffectsConcat(a, b);
    AlbumEffectsConcat(a, b);
  }

  /** Gating is a local property: two gated logs concatenate to a gated log. */
  lemma WellGatedConcat(cfg: Config, a: seq<Action>, b: seq<Action>)
    requires WellGated(cfg, a) && WellGated(cfg, b)
    ensures WellGated(cfg, a + b)
  {
    var l := a + b;
    forall i | 0 <= i < |l|
      ensures GatedAt(cfg, l, i)
    {
      if i < |a| {
        assert GatedAt(cfg, a, i);
        assert l[i] == a[i];
        if i + 1 < |a| { assert l[i + 1] == a[i + 1]; }
        if 0 < i { assert l[i - 1] == a[i - 1]; }
      } else {
        var j := i - |a|;
        assert GatedAt(cfg, b, j);
        assert l[i] == b[j];
        if j + 1 < |b| { assert l[i + 1] == b[j + 1]; }
        if 0 < j { assert l[i - 1] == b[j - 1]; }
      }
    }
  }

  /** Placement survives putting any log in front: earlier directories stay earlier. */
  lemma WellPlacedConcat(cfg: Config, a: seq<Action>, b: seq<Action>)
    requires WellPlaced(cfg, a) && WellPlaced(cfg, b)
    ensures WellPlaced(cfg, a + b)
  {
    var l := a + b;
    forall i | 0 <= i < |l|
      ensures PlacedAt(cfg, l, i)
    {
      if i < |a| {
        assert PlacedAt(cfg, a, i);
        assert l[..i] == a[..i];
      } else {
        var j := i - |a|;
        assert PlacedAt(cfg, b, j);
        assert l[..i] == a + b[..j];
      }
    }
  }

  // ---------------------------------------------------------------------------
  // One item

  /** The trace views of a one-entry log. */
  lemma SingleViews(x: Action, u: string)
    ensures Fetches([x]) == (if x.Fetch? then [x] else [])
    ensures Dirs([x]) == (if x.MakeDirs? then [x.dir] else [])
    ensures AlbumSaves([x], u) == (if x.SaveJson? && x.record.AlbumRecord? && x.record.album.uri == u then [x] else [])
    ensures TrackSaves([x], u) == (if x.SaveJson? && x.record.TrackRecord? && x.record.track.uri == u then [x] else [])
    ensures TrackEffects([x]) == (if (x.SaveJson? && x.record.TrackRecord?) || (x.SaveDownload? && x.file.ext == Mp3) then [x] else [])
    ensures AlbumEffects([x]) == (if (x.SaveJson? && x.record.AlbumRecord?) || (x.SaveDownload? && x.file.ext == Jpg) then [x] else [])
  {
    assert [x][1..] == [];
  }

  /** The album writes of an item are the metadata of the album record and the asset it calls for. */
  lemma AlbumWritesAgree(cfg: Config, a: Album)
    ensures var f := MetadataFile(cfg, AlbumRecord(a));
      AlbumWrites(cfg, f.dir, a) == RecordWrites(cfg, f, AlbumRecord(a))
  {
  }

  /** The track writes of an item are the metadata of the track record and the asset it calls for. */
  lemma TrackWritesAgree(cfg: Config, t: Track)
    ensures var f := MetadataFile(cfg, TrackRecord(t));
      TrackWrites(cfg, f.dir, t) == RecordWrites(cfg, f, TrackRecord(t))
  {
  }

  /**
   What one item logs, in reference terms: both directories, then the album's
   writes unless its URI is cached, then the track's writes unless its URI is cached;
   each cache gains the item's URI.
   */
  lemma ItemLog(cfg: Config, c: Caches, it: Item)
    ensures var s := ProcessItem(cfg, c, it);
      var t := it.track;
      var af := MetadataFile(cfg, AlbumRecord(t.album));
      var tf := MetadataFile(cfg, TrackRecord(t));
      && s.log == [MakeDirs(af.dir), MakeDirs(tf.dir)]
                  + (if t.album.uri in c.albums then [] else RecordWrites(cfg, af, AlbumRecord(t.album)))
                  + (if t.uri in c.tracks then [] else RecordWrites(cfg, tf, TrackRecord(t)))
      && s.caches == Caches(c.albums + {t.album.uri}, c.tracks + {t.uri})
  {
    var t := it.track;
    var albumDir := Join(Path(cfg.output, []), AlbumId(t.album));
    assert albumDir == MetadataFile(cfg, AlbumRecord(t.album)).dir;
    assert Join(albumDir, TrackId(t)).ids == [AlbumId(t.album), TrackId(t)];
    AlbumWritesAgree(cfg, t.album);
    TrackWritesAgree(cfg, t);
  }

  /** What the trace views see of a record's writes. */
  lemma RecordWritesViews(cfg: Config, f: File, r: Record, u: string)
    ensures var w := RecordWrites(cfg, f, r);
      && Fetches(w) == [] && Dirs(w) == []
      && AlbumSaves(w, u) == (if r.AlbumRecord? && r.album.uri == u then [SaveJson(f, r)] else [])
      && TrackSaves(w, u) == (if r.TrackRecord? && r.track.uri == u then [SaveJson(f, r)] else [])
      && TrackEffects(w) == (if r.TrackRecord? then w else [])
      && AlbumEffects(w) == (if r.AlbumRecord? then w else [])
  {
    var j := SaveJson(f, r);
    SingleViews(j, u);
    match AssetAfter(cfg, f, r)
    case None =>
      assert RecordWrites(cfg, f, r) == [j];
    case Some(d) =>
      assert RecordWrites(cfg, f, r) == [j] + [d];
      assert d.SaveDownload? && (d.file.ext == Jpg <==> r.AlbumRecord?) && (d.file.ext == Mp3 <==> r.TrackRecord?);
      SingleViews(d, u);
      ViewsConcat([j], [d]);
  }

  /** A record's writes are gated on their own. */
  lemma RecordWritesGated(cfg: Config, f: File, r: Record)
    ensures WellGated(cfg, RecordWrites(cfg, f, r))
  {
    var w := RecordWrites(cfg, f, r);
    assert w[0] == SaveJson(f, r);
    forall i | 0 <= i < |w| ensures GatedAt(cfg, w, i) {
      if i == 1 {
        assert w[1] == AssetAfter(cfg, f, r).value;
      }
    }
  }

  /** Every entry of a record's writes is a file write into the metadata file's directory, under its stem. */
  lemma RecordWritesFiles(cfg: Config, f: File, r: Record)
    ensures var w := RecordWrites(cfg, f, r);
      forall k :: 0 <= k < |w| ==>
        && (w[k].SaveJson? || w[k].SaveDownload?)
        && w[k].file.dir == f.dir && w[k].file.stem == f.stem
        && (w[k].SaveJson? ==> w[k] == SaveJson(f, r))
  {
  }

  /** The trace views of the two directory entries an item starts with. */
  lemma DirPairViews(p: Path, q: Path, u: string)
    ensures var m := [MakeDirs(p), MakeDirs(q)];
      && Fetches(m) == [] && Dirs(m) == [p, q]
      && AlbumSaves(m, u) == [] && TrackSaves(m, u) == []
      && TrackEffects(m) == [] && AlbumEffects(m) == []
  {
    var m := [MakeDirs(p), MakeDirs(q)];
    assert m == [MakeDirs(p)] + [MakeDirs(q)];
    SingleViews(MakeDirs(p), u);
    SingleViews(MakeDirs(q), u);
    ViewsConcat([MakeDirs(p)], [MakeDirs(q)]);
  }

  /** The log of one item split into its three parts: directories, album writes, track writes. */
  lemma ItemParts(cfg: Config, c: Caches, it: Item) returns (m: seq<Action>, a: seq<Action>, w: seq<Action>)
    ensures var t := it.track;
      var af := MetadataFile(cfg, AlbumRecord(t.album));
      var tf := MetadataFile(cfg, TrackRecord(t));
      && ProcessItem(cfg, c, it).log == m + a + w
      && m == [MakeDirs(af.dir), MakeDirs(tf.dir)]
      && a == (if t.album.uri in c.albums then [] else RecordWrites(cfg, af, AlbumRecord(t.album)))
      && w == (if t.uri in c.tracks then [] else RecordWrites(cfg, tf, TrackRecord(t)))
  {
    var t := it.track;
    var af := MetadataFile(cfg, AlbumRecord(t.album));
    var tf := MetadataFile(cfg, TrackRecord(t));
    ItemLog(cfg, c, it);
    m := [MakeDirs(af.dir), MakeDirs(tf.dir)];
    a := if t.album.uri in c.albums then [] else RecordWrites(cfg, af, AlbumRecord(t.album));
    w := if t.uri in c.tracks then [] else RecordWrites(cfg, tf, TrackRecord(t));
  }

  /** A record's writes create no directory and request no page. */
  lemma RecordWritesQuiet(cfg: Config, f: File, r: Record)
    ensures Fetches(RecordWrites(cfg, f, r)) == [] && Dirs(RecordWrites(cfg, f, r)) == []
  {
    RecordWritesViews(cfg, f, r, "");
  }

  lemma ShapeDirs(p: Path, q: Path, a: seq<Action>, w: seq<Action>)
    requires Dirs(a) == [] && Dirs(w) == []
    ensures Dirs([MakeDirs(p), MakeDirs(q)] + a + w) == [p, q]
  {
    var m := [MakeDirs(p), MakeDirs(q)];
    DirPairViews(p, q, "");
    DirsConcat(m, a);
    DirsConcat(m + a, w);
  }

  /** An item makes exactly its album and track directories, in that order. */
  lemma ItemDirsMade(cfg: Config, c: Caches, it: Item)
    ensures Dirs(ProcessItem(cfg, c, it).log) == ItemDirs(cfg, [it])
  {
    var t := it.track;
    var af := MetadataFile(cfg, AlbumRecord(t.album));
    var tf := MetadataFile(cfg, TrackRecord(t));
    var m, a, w := ItemParts(cfg, c, it);
    RecordWritesQuiet(cfg, af, AlbumRecord(t.album));
    RecordWritesQuiet(cfg, tf, TrackRecord(t));
    ShapeDirs(af.dir, tf.dir, a, w);
    assert [it][1..] == [];
  }

  /** An item requests no page. */
  lemma ItemFetchesNone(cfg: Config, c: Caches, it: Item)
    ensures Fetches(ProcessItem(cfg, c, it).log) == []
  {
    var t := it.track;
    var af := MetadataFile(cfg, AlbumRecord(t.album));
    var tf := MetadataFile(cfg, TrackRecord(t));
    var m, a, w := ItemParts(cfg, c, it);
    RecordWritesQuiet(cfg, af, AlbumRecord(t.album));
    RecordWritesQuiet(cfg, tf, TrackRecord(t));
    ShapeFetches(af.dir, tf.dir, a, w);
  }

  lemma ShapeFetches(p: Path, q: Path, a: seq<Action>, w: seq<Action>)
    requires Fetches(a) == [] && Fetches(w) == []
    ensures Fetches([MakeDirs(p), MakeDirs(q)] + a + w) == []
  {
    var m := [MakeDirs(p), MakeDirs(q)];
    DirPairViews(p, q, "");
    FetchesConcat(m, a);
    FetchesConcat(m + a, w);
  }

  /** What a record's writes contribute to the metadata-write views. */
  lemma RecordWritesSaves(cfg: Config, f: File, r: Record, u: string)
    ensures AlbumSaves(RecordWrites(cfg, f, r), u) == (if r.AlbumRecord? && r.album.uri == u then [SaveJson(f, r)] else [])
    ensures TrackSaves(RecordWrites(cfg, f, r), u) == (if r.TrackRecord? && r.track.uri == u then [SaveJson(f, r)] else [])
  {
    RecordWritesViews(cfg, f, r, u);
  }

  lemma ShapeAlbumSaves(p: Path, q: Path, a: seq<Action>, w: seq<Action>, u: string)
    ensures AlbumSaves([MakeDirs(p), MakeDirs(q)] + a + w, u) == AlbumSaves(a, u) + AlbumSaves(w, u)
  {
    var m := [MakeDirs(p), MakeDirs(q)];
    DirPairViews(p, q, u);
    AlbumSavesConcat(m, a, u);
    AlbumSavesConcat(m + a, w, u);
  }

  lemma ShapeTrackSaves(p: Path, q: Path, a: seq<Action>, w: seq<Action>, u: string)
    ensures TrackSaves([MakeDirs(p), MakeDirs(q)] + a + w, u) == TrackSaves(a, u) + TrackSaves(w, u)
  {
    var m := [MakeDirs(p), MakeDirs(q)];
    DirPairViews(p, q, u);
    TrackSavesConcat(m, a, u);
    TrackSavesConcat(m + a, w, u);
  }

  /** An item writes album metadata for URI u exactly when u is its album's URI and not yet in the album cache. */
  lemma ItemAlbumSaves(cfg: Config, c: Caches, it: Item, u: string)
    ensures AlbumSaves(ProcessItem(cfg, c, it).log, u)
         == if u == it.track.album.uri && u !in c.albums then [SaveOf(cfg, AlbumRecord(it.track.album))] else []
  {
    var t := it.track;
    var af := MetadataFile(cfg, AlbumRecord(t.album));
    var tf := MetadataFile(cfg, TrackRecord(t));
    var m, a, w := ItemParts(cfg, c, it);
    RecordWritesSaves(cfg, af, AlbumRecord(t.album), u);
    RecordWritesSaves(cfg, tf, TrackRecord(t), u);
    ShapeAlbumSaves(af.dir, tf.dir, a, w, u);
  }

  /**
   An item writes track metadata for URI u exactly when u is its track's URI
   and not yet in the track cache; whether its album was cached plays no part.
   */
  lemma ItemTrackSaves(cfg: Config, c: Caches, it: Item, u: string)
    ensures TrackSaves(ProcessItem(cfg, c, it).log, u)
         == if u == it.track.uri && u !in c.tracks then [SaveOf(cfg, TrackRecord(it.track))] else []
  {
    var t := it.track;
    var af := MetadataFile(cfg, AlbumRecord(t.album));
    var tf := MetadataFile(cfg, TrackRecord(t));
    var m, a, w := ItemParts(cfg, c, it);
    RecordWritesSaves(cfg, af, AlbumRecord(t.album), u);
    RecordWritesSaves(cfg, tf, TrackRecord(t), u);
    ShapeTrackSaves(af.dir, tf.dir, a, w, u);
  }

  /** What a record's writes contribute to the per-kind effect views. */
  lemma RecordWritesEffects(cfg: Config, f: File, r: Record)
    ensures TrackEffects(RecordWrites(cfg, f, r)) == (if r.TrackRecord? then RecordWrites(cfg, f, r) else [])
    ensures AlbumEffects(RecordWrites(cfg, f, r)) == (if r.AlbumRecord? then RecordWrites(cfg, f, r) else [])
  {
    RecordWritesViews(cfg, f, r, "");
  }

  lemma ShapeTrackEffects(p: Path, q: Path, a: seq<Action>, w: seq<Action>)
    ensures TrackEffects([MakeDirs(p), MakeDirs(q)] + a + w) == TrackEffects(a) + TrackEffects(w)
  {
    var m := [MakeDirs(p), MakeDirs(q)];
    DirPairViews(p, q, "");
    TrackEffectsConcat(m, a);
    TrackEffectsConcat(m + a, w);
  }

  lemma ShapeAlbumEffects(p: Path, q: Path, a: seq<Action>, w: seq<Action>)
    ensures AlbumEffects([MakeDirs(p), MakeDirs(q)] + a + w) == AlbumEffects(a) + AlbumEffects(w)
  {
    var m := [MakeDirs(p), MakeDirs(q)];
    DirPairViews(p, q, "");
    AlbumEffectsConcat(m, a);
    AlbumEffectsConcat(m + a, w);
  }

  /**
   Everything an item writes for its track is decided by the track cache alone,
   and everything it writes for its album by the album cache alone.
   */
  lemma ItemEffects(cfg: Config, c: Caches, it: Item)
    ensures var s := ProcessItem(cfg, c, it);
      var t := it.track;
      && TrackEffects(s.log) == (if t.uri in c.tracks then [] else RecordWrites(cfg, MetadataFile(cfg, TrackRecord(t)), TrackRecord(t)))
      && AlbumEffects(s.log) == (if t.album.uri in c.albums then [] else RecordWrites(cfg, MetadataFile(cfg, AlbumRecord(t.album)), AlbumRecord(t.album)))
  {
    var t := it.track;
    var af := MetadataFile(cfg, AlbumRecord(t.album));
    var tf := MetadataFile(cfg, TrackRecord(t));
    var m, a, w := ItemParts(cfg, c, it);
    RecordWritesEffects(cfg, af, AlbumRecord(t.album));
    RecordWritesEffects(cfg, tf, TrackRecord(t));
    ShapeTrackEffects(af.dir, tf.dir, a, w);
    ShapeAlbumEffects(af.dir, tf.dir, a, w);
  }

  /** Every entry of `a` writes a file into directory `d`, which lies under the output root, as its layout demands. */
  predicate WritesInto(cfg: Config, a: seq<Action>, d: Path) {
    forall k :: 0 <= k < |a| ==>
      && (a[k].SaveJson? || a[k].SaveDownload?)
      && a[k].file.dir == d && Colocated(a[k].file) && d.root == cfg.output
      && (a[k].SaveJson? ==> a[k].file == MetadataFile(cfg, a[k].record))
  }

  /** A metadata file lies under the output root, in the directory named after its own stem. */
  lemma MetadataFilePlaced(cfg: Config, r: Record)
    ensures Colocated(MetadataFile(cfg, r)) && MetadataFile(cfg, r).dir.root == cfg.output
  {
  }

  lemma RecordWritesInto(cfg: Config, r: Record)
    ensures var f := MetadataFile(cfg, r);
      WritesInto(cfg, RecordWrites(cfg, f, r), f.dir)
  {
    var f := MetadataFile(cfg, r);
    RecordWritesFiles(cfg, f, r);
    MetadataFilePlaced(cfg, r);
  }

  lemma ShapePlaced(cfg: Config, p: Path, q: Path, a: seq<Action>, w: seq<Action>)
    requires WritesInto(cfg, a, p) && WritesInto(cfg, w, q)
    ensures WellPlaced(cfg, [MakeDirs(p), MakeDirs(q)] + a + w)
  {
    var l := [MakeDirs(p), MakeDirs(q)] + a + w;
    forall i | 0 <= i < |l|
      ensures PlacedAt(cfg, l, i)
    {
      if 2 <= i < 2 + |a| {
        assert l[i] == a[i - 2];
        assert l[..i][0] == MakeDirs(p);
      } else if 2 + |a| <= i {
        assert l[i] == w[i - 2 - |a|];
        assert l[..i][1] == MakeDirs(q);
      }
    }
  }

  lemma ShapeGated(cfg: Config, p: Path, q: Path, a: seq<Action>, w: seq<Action>)
    requires WellGated(cfg, a) && WellGated(cfg, w)
    ensures WellGated(cfg, [MakeDirs(p), MakeDirs(q)] + a + w)
  {
    var m := [MakeDirs(p), MakeDirs(q)];
    assert forall i | 0 <= i < |m| :: GatedAt(cfg, m, i);
    WellGatedConcat(cfg, m, a);
    WellGatedConcat(cfg, m + a, w);
  }

  /**
   An item's log respects the layout and the asset gating: every file goes into
   the directory of its entity, which the item created before writing it, and
   every download comes right after the metadata write that calls for it.
   */
  lemma ItemWellFormed(cfg: Config, c: Caches, it: Item)
    ensures WellPlaced(cfg, ProcessItem(cfg, c, it).log)
    ensures WellGated(cfg, ProcessItem(cfg, c, it).log)
  {
    var t := it.track;
    var af := MetadataFile(cfg, AlbumRecord(t.album));
    var tf := MetadataFile(cfg, TrackRecord(t));
    var m, a, w := ItemParts(cfg, c, it);
    RecordWritesInto(cfg, AlbumRecord(t.album));
    RecordWritesInto(cfg, TrackRecord(t));
    RecordWritesGated(cfg, af, AlbumRecord(t.album));
    RecordWritesGated(cfg, tf, TrackRecord(t));
    ShapePlaced(cfg, af.dir, tf.dir, a, w);
    ShapeGated(cfg, af.dir, tf.dir, a, w);
  }

  // ---------------------------------------------------------------------------
  // Facts about the reference definitions

  lemma {:induction false} UrisConcat(xs: seq<Item>, ys: seq<Item>)
    ensures AlbumUris(xs + ys) == AlbumUris(xs) + AlbumUris(ys)
    ensures TrackUris(xs + ys) == TrackUris(xs) + TrackUris(ys)
  {
    var l := xs + ys;
    forall u | u in AlbumUris(l) ensures u in AlbumUris(xs) + AlbumUris(ys) {
      var k :| 0 <= k < |l| && l[k].track.album.uri == u;
      if k < |xs| { assert xs[k] == l[k]; } else { assert ys[k - |xs|] == l[k]; }
    }
    forall u | u in AlbumUris(xs) + AlbumUris(ys) ensures u in AlbumUris(l) {
      if u in AlbumUris(xs) {
        var k :| 0 <= k < |xs| && xs[k].track.album.uri == u;
        assert l[k] == xs[k];
      } else {
        var k :| 0 <= k < |ys| && ys[k].track.album.uri == u;
        assert l[|xs| + k] == ys[k];
      }
    }
    forall u | u in TrackUris(l) ensures u in TrackUris(xs) + TrackUris(ys) {
      var k :| 0 <= k < |l| && l[k].track.uri == u;
      if k < |xs| { assert xs[k] == l[k]; } else { assert ys[k - |xs|] == l[k]; }
    }
    forall u | u in TrackUris(xs) + TrackUris(ys) ensures u in TrackUris(l) {
      if u in TrackUris(xs) {
        var k :| 0 <= k < |xs| && xs[k].track.uri == u;
        assert l[k] == xs[k];
      } else {
        var k :| 0 <= k < |ys| && ys[k].track.uri == u;
        assert l[|xs| + k] == ys[k];
      }
    }
  }

  lemma UrisSingle(x: Item)
    ensures AlbumUris([x]) == {x.track.album.uri} && TrackUris([x]) == {x.track.uri}
  {
    assert [x][0] == x;
  }

  lemma {:induction false} ItemDirsConcat(cfg: Config, xs: seq<Item>, ys: seq<Item>)
    ensures ItemDirs(cfg, xs + ys) == ItemDirs(cfg, xs) + ItemDirs(cfg, ys)
    decreases |xs|
  {
    if |xs| == 0 {
      assert xs + ys == ys;
    } else {
      assert (xs + ys)[0] == xs[0];
      assert (xs + ys)[1..] == xs[1..] + ys;
      ItemDirsConcat(cfg, xs[1..], ys);
    }
  }

  /** The first album with URI u exists exactly when u is the URI of some item's album, and carries that URI. */
  lemma {:induction false} FirstAlbumFound(xs: seq<Item>, u: string)
    ensures FirstAlbum(xs, u).Some? <==> u in AlbumUris(xs)
    ensures FirstAlbum(xs, u).Some? ==> FirstAlbum(xs, u).value.uri == u
    decreases |xs|
  {
    if |xs| > 0 {
      FirstAlbumFound(xs[1..], u);
      assert xs == [xs[0]] + xs[1..];
      UrisConcat([xs[0]], xs[1..]);
      UrisSingle(xs[0]);
    }
  }

  /** The first track with URI u exists exactly when u is the URI of some item's track, and carries that URI. */
  lemma {:induction false} FirstTrackFound(xs: seq<Item>, u: string)
    ensures FirstTrack(xs, u).Some? <==> u in TrackUris(xs)
    ensures FirstTrack(xs, u).Some? ==> FirstTrack(xs, u).value.uri == u
    decreases |xs|
  {
    if |xs| > 0 {
      FirstTrackFound(xs[1..], u);
      assert xs == [xs[0]] + xs[1..];
      UrisConcat([xs[0]], xs[1..]);
      UrisSingle(xs[0]);
    }
  }

  lemma {:induction false} FirstAlbumConcat(xs: seq<Item>, ys: seq<Item>, u: string)
    ensures FirstAlbum(xs + ys, u) == if FirstAlbum(xs, u).Some? then FirstAlbum(xs, u) else FirstAlbum(ys, u)
    decreases |xs|
  {
    if |xs| == 0 {
      assert xs + ys == ys;
    } else {
      assert (xs + ys)[0] == xs[0];
      assert (xs + ys)[1..] == xs[1..] + ys;
      FirstAlbumConcat(xs[1..], ys, u);
    }
  }

  lemma {:induction false} FirstTrackConcat(xs: seq<Item>, ys: seq<Item>, u: string)
    ensures FirstTrack(xs + ys, u) == if FirstTrack(xs, u).Some? then FirstTrack(xs, u) else FirstTrack(ys, u)
    decreases |xs|
  {
    if |xs| == 0 {
      assert xs + ys == ys;
    } else {
      assert (xs + ys)[0] == xs[0];
      assert (xs + ys)[1..] == xs[1..] + ys;
      FirstTrackConcat(xs[1..], ys, u);
    }
  }

  /** The album write owed for u over two stretches of items: the first stretch's, or else the second's. */
  lemma AlbumSaveDueConcat(cfg: Config, xs: seq<Item>, ys: seq<Item>, u: string)
    ensures AlbumSaveDue(cfg, xs + ys, u)
         == AlbumSaveDue(cfg, xs, u) + (if u in AlbumUris(xs) then [] else AlbumSaveDue(cfg, ys, u))
  {
    FirstAlbumConcat(xs, ys, u);
    FirstAlbumFound(xs, u);
  }

  /** The track write owed for u over two stretches of items: the first stretch's, or else the second's. */
  lemma TrackSaveDueConcat(cfg: Config, xs: seq<Item>, ys: seq<Item>, u: string)
    ensures TrackSaveDue(cfg, xs + ys, u)
         == TrackSaveDue(cfg, xs, u) + (if u in TrackUris(xs) then [] else TrackSaveDue(cfg, ys, u))
  {
    FirstTrackConcat(xs, ys, u);
    FirstTrackFound(xs, u);
  }

  lemma SaveDueSingle(cfg: Config, x: Item, u: string)
    ensures AlbumSaveDue(cfg, [x], u) == (if x.track.album.uri == u then [SaveOf(cfg, AlbumRecord(x.track.album))] else [])
    ensures TrackSaveDue(cfg, [x], u) == (if x.track.uri == u then [SaveOf(cfg, TrackRecord(x.track))] else [])
  {
    assert [x][0] == x && [x][1..] == [];
    assert FirstAlbum([x], u) == if x.track.album.uri == u then Some(x.track.album) else FirstAlbum([], u);
    assert FirstTrack([x], u) == if x.track.uri == u then Some(x.track) else FirstTrack([], u);
  }

  // ---------------------------------------------------------------------------
  // One page

  /** After a page, each cache holds what it held before plus the URIs of the page's items. */
  lemma {:induction false} PageCaches(cfg: Config, c: Caches, items: seq<Item>)
    ensures ProcessPage(cfg, c, items).caches == Caches(c.albums + AlbumUris(items), c.tracks + TrackUris(items))
    decreases |items|
  {
    if |items| == 0 {
      assert AlbumUris(items) == {} && TrackUris(items) == {};
    } else {
      var init, x := items[..|items| - 1], items[|items| - 1];
      PageCaches(cfg, c, init);
      assert items == init + [x];
      UrisConcat(init, [x]);
      UrisSingle(x);
    }
  }

  /** A page requests nothing further and makes the two directories of each of its items, in item order. */
  lemma {:induction false} PageDirs(cfg: Config, c: Caches, items: seq<Item>)
    ensures Fetches(ProcessPage(cfg, c, items).log) == []
    ensures Dirs(ProcessPage(cfg, c, items).log) == ItemDirs(cfg, items)
    decreases |items|
  {
    if |items| > 0 {
      var init, x := items[..|items| - 1], items[|items| - 1];
      var b := ProcessPage(cfg, c, init);
      var l := ProcessItem(cfg, b.caches, x);
      PageDirs(cfg, c, init);
      ItemFetchesNone(cfg, b.caches, x);
      ItemDirsMade(cfg, b.caches, x);
      FetchesConcat(b.log, l.log);
      DirsConcat(b.log, l.log);
      assert items == init + [x];
      ItemDirsConcat(cfg, init, [x]);
    }
  }

  lemma AlbumSavesStep(cfg: Config, cached: set<string>, init: seq<Item>, x: Item, u: string,
                         before: seq<Action>, last: seq<Action>, seen: set<string>)
    requires AlbumSaves(before, u) == if u in cached then [] else AlbumSaveDue(cfg, init, u)
    requires seen == cached + AlbumUris(init)
    requires AlbumSaves(last, u) == if u == x.track.album.uri && u !in seen then [SaveOf(cfg, AlbumRecord(x.track.album))] else []
    ensures AlbumSaves(before + last, u) == if u in cached then [] else AlbumSaveDue(cfg, init + [x], u)
  {
    AlbumSavesConcat(before, last, u);
    AlbumSaveDueConcat(cfg, init, [x], u);
    SaveDueSingle(cfg, x, u);
  }

  /**
   Within a page, album metadata for URI u is written only if u was not cached
   when the page began, and then exactly once, for the first item whose album has URI u.
   */
  lemma {:induction false} PageAlbumSaves(cfg: Config, c: Caches, items: seq<Item>, u: string)
    ensures AlbumSaves(ProcessPage(cfg, c, items).log, u) == if u in c.albums then [] else AlbumSaveDue(cfg, items, u)
    decreases |items|
  {
    if |items| > 0 {
      var init, x := items[..|items| - 1], items[|items| - 1];
      var b := ProcessPage(cfg, c, init);
      var l := ProcessItem(cfg, b.caches, x);
      assert items == init + [x];
      assert ProcessPage(cfg, c, items) == Step(b.log + l.log, l.caches);
      PageAlbumSaves(cfg, c, init, u);
      PageCaches(cfg, c, init);
      ItemAlbumSaves(cfg, b.caches, x, u);
      AlbumSavesStep(cfg, c.albums, init, x, u, b.log, l.log, b.caches.albums);
    }
  }

  lemma TrackSavesStep(cfg: Config, cached: set<string>, init: seq<Item>, x: Item, u: string,
                         before: seq<Action>, last: seq<Action>, seen: set<string>)
    requires TrackSaves(before, u) == if u in cached then [] else TrackSaveDue(cfg, init, u)
    requires seen == cached + TrackUris(init)
    requires TrackSaves(last, u) == if u == x.track.uri && u !in seen then [SaveOf(cfg, TrackRecord(x.track))] else []
    ensures TrackSaves(before + last, u) == if u in cached then [] else TrackSaveDue(cfg, init + [x], u)
  {
    TrackSavesConcat(before, last, u);
    TrackSaveDueConcat(cfg, init, [x], u);
    SaveDueSingle(cfg, x, u);
  }

  /**
   Within a page, track metadata for URI u is written only if u was not cached
   when the page began, and then exactly once, for the first item with track URI u.
   */
  lemma {:induction false} PageTrackSaves(cfg: Config, c: Caches, items: seq<Item>, u: string)
    ensures TrackSaves(ProcessPage(cfg, c, items).log, u) == if u in c.tracks then [] else TrackSaveDue(cfg, items, u)
    decreases |items|
  {
    if |items| > 0 {
      var init, x := items[..|items| - 1], items[|items| - 1];
      var b := ProcessPage(cfg, c, init);
      var l := ProcessItem(cfg, b.caches, x);
      assert items == init + [x];
      assert ProcessPage(cfg, c, items) == Step(b.log + l.log, l.caches);
      PageTrackSaves(cfg, c, init, u);
      PageCaches(cfg, c, init);
      ItemTrackSaves(cfg, b.caches, x, u);
      TrackSavesStep(cfg, c.tracks, init, x, u, b.log, l.log, b.caches.tracks);
    }
  }

  /** A page's log respects the layout and the asset gating. */
  lemma {:induction false} PageWellFormed(cfg: Config, c: Caches, items: seq<Item>)
    ensures WellPlaced(cfg, ProcessPage(cfg, c, items).log)
    ensures WellGated(cfg, ProcessPage(cfg, c, items).log)
    decreases |items|
  {
    if |items| > 0 {
      var init, x := items[..|items| - 1], items[|items| - 1];
      var b := ProcessPage(cfg, c, init);
      var l := ProcessItem(cfg, b.caches, x);
      PageWellFormed(cfg, c, init);
      ItemWellFormed(cfg, b.caches, x);
      WellPlacedConcat(cfg, b.log, l.log);
      WellGatedConcat(cfg, b.log, l.log);
    }
  }

  /** What a page writes for tracks depends on the track cache it starts with, not on the album cache. */
  lemma {:induction false} PageTrackEffects(cfg: Config, c1: Caches, c2: Caches, items: seq<Item>)
    requires c1.tracks == c2.tracks
    ensures TrackEffects(ProcessPage(cfg, c1, items).log) == TrackEffects(ProcessPage(cfg, c2, items).log)
    decreases |items|
  {
    if |items| > 0 {
      var init, x := items[..|items| - 1], items[|items| - 1];
      var b1, b2 := ProcessPage(cfg, c1, init), ProcessPage(cfg, c2, init);
      var l1, l2 := ProcessItem(cfg, b1.caches, x), ProcessItem(cfg, b2.caches, x);
      PageTrackEffects(cfg, c1, c2, init);
      PageCaches(cfg, c1, init);
      PageCaches(cfg, c2, init);
      ItemEffects(cfg, b1.caches, x);
      ItemEffects(cfg, b2.caches, x);
      TrackEffectsConcat(b1.log, l1.log);
      TrackEffectsConcat(b2.log, l2.log);
    }
  }

  /** What a page writes for albums depends on the album cache it starts with, not on the track cache. */
  lemma {:induction false} PageAlbumEffects(cfg: Config, c1: Caches, c2: Caches, items: seq<Item>)
    requires c1.albums == c2.albums
    ensures AlbumEffects(ProcessPage(cfg, c1, items).log) == AlbumEffects(ProcessPage(cfg, c2, items).log)
    decreases |items|
  {
    if |items| > 0 {
      var init, x := items[..|items| - 1], items[|items| - 1];
      var b1, b2 := ProcessPage(cfg, c1, init), ProcessPage(cfg, c2, init);
      var l1, l2 := ProcessItem(cfg, b1.caches, x), ProcessItem(cfg, b2.caches, x);
      PageAlbumEffects(cfg, c1, c2, init);
      PageCaches(cfg, c1, init);
      PageCaches(cfg, c2, init);
      ItemEffects(cfg, b1.caches, x);
      ItemEffects(cfg, b2.caches, x);
      AlbumEffectsConcat(b1.log, l1.log);
      AlbumEffectsConcat(b2.log, l2.log);
    }
  }

  // ---------------------------------------------------------------------------
  // The loop over pages

  /** Pages i .. i + Leading - 1 are non-empty and page i + Leading is the empty one that stops the loop. */
  lemma {:induction false} LeadingShape(pages: seq<Page>, i: nat)
    ensures forall j :: i <= j < i + Leading(pages, i) ==> |PageAt(pages, j)| > 0
    ensures |PageAt(pages, i + Leading(pages, i))| == 0
    decreases |pages| - i
  {
    if |PageAt(pages, i)| > 0 {
      LeadingShape(pages, i + 1);
      assert i + Leading(pages, i) == (i + 1) + Leading(pages, i + 1);
    }
  }

  /** With N pages, all non-empty, the loop gets through all of them from any index up to N. */
  lemma {:induction false} LeadingAllFull(pages: seq<Page>, i: nat)
    requires i <= |pages|
    requires forall k :: 0 <= k < |pages| ==> |pages[k]| > 0
    ensures Leading(pages, i) == |pages| - i
    decreases |pages| - i
  {
    if i < |pages| {
      assert |PageAt(pages, i)| > 0;
      LeadingAllFull(pages, i + 1);
    }
  }

  lemma RequestsCons(i: nat, n: nat)
    ensures Requests(i, n + 1) == [Fetch(PageLimit, PageLimit * i)] + Requests(i + 1, n)
  {
    var l := Requests(i, n + 1);
    var r := [Fetch(PageLimit, PageLimit * i)] + Requests(i + 1, n);
    forall k | 0 <= k < n + 1 ensures l[k] == r[k] {
      if k > 0 {
        assert r[k] == Requests(i + 1, n)[k - 1];
        assert i + k == (i + 1) + (k - 1);
      }
    }
  }

  /** Each turn of the loop: the request, then the page's items, then the rest of the loop. */
  lemma LoopTurn(cfg: Config, pages: seq<Page>, i: nat, c: Caches) returns (p: Step, r: Step)
    requires |PageAt(pages, i)| > 0
    ensures p == ProcessPage(cfg, c, PageAt(pages, i))
    ensures r == Loop(cfg, pages, i + 1, p.caches)
    ensures Loop(cfg, pages, i, c) == Step([Fetch(PageLimit, PageLimit * i)] + p.log + r.log, r.caches)
    ensures Processed(pages, i) == PageAt(pages, i) + Processed(pages, i + 1)
    ensures Leading(pages, i) == 1 + Leading(pages, i + 1)
  {
    p := ProcessPage(cfg, c, PageAt(pages, i));
    r := Loop(cfg, pages, i + 1, p.caches);
  }

  lemma CachesTurn(c: Caches, page: seq<Item>, rest: seq<Item>, pc: Caches, rc: Caches)
    requires pc == Caches(c.albums + AlbumUris(page), c.tracks + TrackUris(page))
    requires rc == Caches(pc.albums + AlbumUris(rest), pc.tracks + TrackUris(rest))
    ensures rc == Caches(c.albums + AlbumUris(page + rest), c.tracks + TrackUris(page + rest))
  {
    UrisConcat(page, rest);
  }

  /** From page i on, each cache gains the URIs of the items of the pages the loop gets to. */
  lemma {:induction false} LoopCaches(cfg: Config, pages: seq<Page>, i: nat, c: Caches)
    ensures Loop(cfg, pages, i, c).caches
         == Caches(c.albums + AlbumUris(Processed(pages, i)), c.tracks + TrackUris(Processed(pages, i)))
    decreases |pages| - i
  {
    if |PageAt(pages, i)| == 0 {
      assert Processed(pages, i) == [];
      assert AlbumUris([]) == {} && TrackUris([]) == {};
    } else {
      var p, r := LoopTurn(cfg, pages, i, c);
      PageCaches(cfg, c, PageAt(pages, i));
      LoopCaches(cfg, pages, i + 1, p.caches);
      CachesTurn(c, PageAt(pages, i), Processed(pages, i + 1), p.caches, r.caches);
    }
  }

  lemma FetchesTurn(i: nat, n: nat, pl: seq<Action>, rl: seq<Action>)
    requires Fetches(pl) == [] && Fetches(rl) == Requests(i + 1, n)
    ensures Fetches([Fetch(PageLimit, PageLimit * i)] + pl + rl) == Requests(i, n + 1)
  {
    var f := Fetch(PageLimit, PageLimit * i);
    SingleViews(f, "");
    FetchesConcat([f], pl);
    FetchesConcat([f] + pl, rl);
    RequestsCons(i, n);
  }

  lemma FetchesLast(i: nat)
    ensures Fetches([Fetch(PageLimit, PageLimit * i)]) == Requests(i, 1)
  {
    SingleViews(Fetch(PageLimit, PageLimit * i), "");
    RequestsCons(i, 0);
    assert Requests(i + 1, 0) == [];
  }

  /** From page i on, the loop requests pages i, i+1, ... at offsets PageLimit apart, up to and including the first empty one. */
  lemma {:induction false} LoopFetches(cfg: Config, pages: seq<Page>, i: nat, c: Caches)
    ensures Fetches(Loop(cfg, pages, i, c).log) == Requests(i, Leading(pages, i) + 1)
    decreases |pages| - i
  {
    if |PageAt(pages, i)| == 0 {
      FetchesLast(i);
    } else {
      var p, r := LoopTurn(cfg, pages, i, c);
      LoopFetches(cfg, pages, i + 1, p.caches);
      PageDirs(cfg, c, PageAt(pages, i));
      FetchesTurn(i, Leading(pages, i + 1) + 1, p.log, r.log);
    }
  }

  lemma DirsTurn(cfg: Config, f: Action, page: seq<Item>, rest: seq<Item>, pl: seq<Action>, rl: seq<Action>)
    requires f.Fetch?
    requires Dirs(pl) == ItemDirs(cfg, page) && Dirs(rl) == ItemDirs(cfg, rest)
    ensures Dirs([f] + pl + rl) == ItemDirs(cfg, page + rest)
  {
    SingleViews(f, "");
    DirsConcat([f], pl);
    DirsConcat([f] + pl, rl);
    ItemDirsConcat(cfg, page, rest);
    calc {
      Dirs([f] + pl + rl);
      Dirs([f] + pl) + Dirs(rl);
      (Dirs([f]) + Dirs(pl)) + Dirs(rl);
      ([] + ItemDirs(cfg, page)) + ItemDirs(cfg, rest);
      { assert [] + ItemDirs(cfg, page) == ItemDirs(cfg, page); }
      ItemDirs(cfg, page + rest);
    }
  }

  /** From page i on, the loop makes the two directories of every item it gets to, in order, whatever the caches. */
  lemma {:induction false} LoopDirs(cfg: Config, pages: seq<Page>, i: nat, c: Caches)
    ensures Dirs(Loop(cfg, pages, i, c).log) == ItemDirs(cfg, Processed(pages, i))
    decreases |pages| - i
  {
    var f := Fetch(PageLimit, PageLimit * i);
    if |PageAt(pages, i)| == 0 {
      SingleViews(f, "");
    } else {
      var p, r := LoopTurn(cfg, pages, i, c);
      LoopDirs(cfg, pages, i + 1, p.caches);
      PageDirs(cfg, c, PageAt(pages, i));
      DirsTurn(cfg, f, PageAt(pages, i), Processed(pages, i + 1), p.log, r.log);
    }
  }

  lemma AlbumSavesTurn(cfg: Config, cached: set<string>, page: seq<Item>, rest: seq<Item>, u: string,
                       f: Action, pl: seq<Action>, rl: seq<Action>, seen: set<string>)
    requires f.Fetch?
    requires AlbumSaves(pl, u) == if u in cached then [] else AlbumSaveDue(cfg, page, u)
    requires seen == cached + AlbumUris(page)
    requires AlbumSaves(rl, u) == if u in seen then [] else AlbumSaveDue(cfg, rest, u)
    ensures AlbumSaves([f] + pl + rl, u) == if u in cached then [] else AlbumSaveDue(cfg, page + rest, u)
  {
    SingleViews(f, u);
    AlbumSavesConcat([f], pl, u);
    AlbumSavesConcat([f] + pl, rl, u);
    AlbumSaveDueConcat(cfg, page, rest, u);
  }

  lemma TrackSavesTurn(cfg: Config, cached: set<string>, page: seq<Item>, rest: seq<Item>, u: string,
                       f: Action, pl: seq<Action>, rl: seq<Action>, seen: set<string>)
    requires f.Fetch?
    requires TrackSaves(pl, u) == if u in cached then [] else TrackSaveDue(cfg, page, u)
    requires seen == cached + TrackUris(page)
    requires TrackSaves(rl, u) == if u in seen then [] else TrackSaveDue(cfg, rest, u)
    ensures TrackSaves([f] + pl + rl, u) == if u in cached then [] else TrackSaveDue(cfg, page + rest, u)
  {
    SingleViews(f, u);
    TrackSavesConcat([f], pl, u);
    TrackSavesConcat([f] + pl, rl, u);
    TrackSaveDueConcat(cfg, page, rest, u);
  }

  /** From page i on, album metadata for u is written once, for the first album with URI u, unless u was cached. */
  lemma {:induction false} LoopAlbumSaves(cfg: Config, pages: seq<Page>, i: nat, c: Caches, u: string)
    ensures AlbumSaves(Loop(cfg, pages, i, c).log, u)
         == if u in c.albums then [] else AlbumSaveDue(cfg, Processed(pages, i), u)
    decreases |pages| - i
  {
    var f := Fetch(PageLimit, PageLimit * i);
    if |PageAt(pages, i)| == 0 {
      SingleViews(f, u);
      assert Processed(pages, i) == [];
    } else {
      var p, r := LoopTurn(cfg, pages, i, c);
      PageAlbumSaves(cfg, c, PageAt(pages, i), u);
      PageCaches(cfg, c, PageAt(pages, i));
      LoopAlbumSaves(cfg, pages, i + 1, p.caches, u);
      AlbumSavesTurn(cfg, c.albums, PageAt(pages, i), Processed(pages, i + 1), u, f, p.log, r.log, p.caches.albums);
    }
  }

  /** From page i on, track metadata for u is written once, for the first track with URI u, unless u was cached. */
  lemma {:induction false} LoopTrackSaves(cfg: Config, pages: seq<Page>, i: nat, c: Caches, u: string)
    ensures TrackSaves(Loop(cfg, pages, i, c).log, u)
         == if u in c.tracks then [] else TrackSaveDue(cfg, Processed(pages, i), u)
    decreases |pages| - i
  {
    var f := Fetch(PageLimit, PageLimit * i);
    if |PageAt(pages, i)| == 0 {
      SingleViews(f, u);
      assert Processed(pages, i) == [];
    } else {
      var p, r := LoopTurn(cfg, pages, i, c);
      PageTrackSaves(cfg, c, PageAt(pages, i), u);
      PageCaches(cfg, c, PageAt(pages, i));
      LoopTrackSaves(cfg, pages, i + 1, p.caches, u);
      TrackSavesTurn(cfg, c.tracks, PageAt(pages, i), Processed(pages, i + 1), u, f, p.log, r.log, p.caches.tracks);
    }
  }

  lemma FetchWellFormed(cfg: Config, f: Action)
    requires f.Fetch?
    ensures WellPlaced(cfg, [f]) && WellGated(cfg, [f])
  {
    assert PlacedAt(cfg, [f], 0) && GatedAt(cfg, [f], 0);
  }

  /** From page i on, the loop's log respects the layout and the asset gating. */
  lemma {:induction false} LoopWellFormed(cfg: Config, pages: seq<Page>, i: nat, c: Caches)
    ensures WellPlaced(cfg, Loop(cfg, pages, i, c).log)
    ensures WellGated(cfg, Loop(cfg, pages, i, c).log)
    decreases |pages| - i
  {
    var f := Fetch(PageLimit, PageLimit * i);
    FetchWellFormed(cfg, f);
    if |PageAt(pages, i)| > 0 {
      var p, r := LoopTurn(cfg, pages, i, c);
      PageWellFormed(cfg, c, PageAt(pages, i));
      LoopWellFormed(cfg, pages, i + 1, p.caches);
      WellPlacedConcat(cfg, [f], p.log);
      WellPlacedConcat(cfg, [f] + p.log, r.log);
      WellGatedConcat(cfg, [f], p.log);
      WellGatedConcat(cfg, [f] + p.log, r.log);
    }
  }

  /** From page i on, what the loop writes for tracks depends on the track cache, not on the album cache. */
  lemma {:induction false} LoopTrackEffects(cfg: Config, pages: seq<Page>, i: nat, c1: Caches, c2: Caches)
    requires c1.tracks == c2.tracks
    ensures TrackEffects(Loop(cfg, pages, i, c1).log) == TrackEffects(Loop(cfg, pages, i, c2).log)
    decreases |pages| - i
  {
    var f := Fetch(PageLimit, PageLimit * i);
    SingleViews(f, "");
    if |PageAt(pages, i)| > 0 {
      var p1, r1 := LoopTurn(cfg, pages, i, c1);
      var p2, r2 := LoopTurn(cfg, pages, i, c2);
      PageTrackEffects(cfg, c1, c2, PageAt(pages, i));
      PageCaches(cfg, c1, PageAt(pages, i));
      PageCaches(cfg, c2, PageAt(pages, i));
      LoopTrackEffects(cfg, pages, i + 1, p1.caches, p2.caches);
      TrackEffectsConcat([f], p1.log);
      TrackEffectsConcat([f] + p1.log, r1.log);
      TrackEffectsConcat([f], p2.log);
      TrackEffectsConcat([f] + p2.log, r2.log);
    }
  }

  /** From page i on, what the loop writes for albums depends on the album cache, not on the track cache. */
  lemma {:induction false} LoopAlbumEffects(cfg: Config, pages: seq<Page>, i: nat, c1: Caches, c2: Caches)
    requires c1.albums == c2.albums
    ensures AlbumEffects(Loop(cfg, pages, i, c1).log) == AlbumEffects(Loop(cfg, pages, i, c2).log)
    decreases |pages| - i
  {
    var f := Fetch(PageLimit, PageLimit * i);
    SingleViews(f, "");
    if |PageAt(pages, i)| > 0 {
      var p1, r1 := LoopTurn(cfg, pages, i, c1);
      var p2, r2 := LoopTurn(cfg, pages, i, c2);
      PageAlbumEffects(cfg, c1, c2, PageAt(pages, i));
      PageCaches(cfg, c1, PageAt(pages, i));
      PageCaches(cfg, c2, PageAt(pages, i));
      LoopAlbumEffects(cfg, pages, i + 1, p1.caches, p2.caches);
      AlbumEffectsConcat([f], p1.log);
      AlbumEffectsConcat([f] + p1.log, r1.log);
      AlbumEffectsConcat([f], p2.log);
      AlbumEffectsConcat([f] + p2.log, r2.log);
    }
  }
}
