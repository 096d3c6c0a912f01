/**
 On-disk layout of the mirror. A path is the output root followed by the
 identifiers of the entities it descends into (what os.path.join glues with
 '/'); a file is a directory, a stem and an extension. Every entity lives in
 its own directory named by its identifier, and its files inside that
 directory carry the same identifier as their stem:

   output/<album id>/<album id>.json|.jpg
   output/<album id>/<track id>/<track id>.json|.mp3

 Paths are kept structured; Text renders them to their component strings.
 Each identifier counts as one component, which matches the directories on
 disk only as long as no URI or name contains '/'.
 */
module Layout {
  import opened Maybe
  import opened Ident

  datatype Path = Path(root: string, ids: seq<Id>) {
    /** The path's components as strings: the root, then each identifier's text. */
    function Text(): (t: seq<string>)
      ensures |t| == |ids| + 1 && t[0] == root
      ensures forall k :: 0 <= k < |ids| ==> t[k + 1] == ids[k].Text()
    {
      [root] + seq(|ids|, k requires 0 <= k < |ids| => ids[k].Text())
    }
  }

  datatype Ext = Json | Jpg | Mp3

  function ExtText(e: Ext): string {
    match e
    case Json => ".json"
    case Jpg => ".jpg"
    case Mp3 => ".mp3"
  }

  /** os.path.join(dir, stem + ext): a file named after an entity identifier. */
  datatype File = File(dir: Path, stem: Id, ext: Ext) {
    /** The file's own name: the stem's text followed by the extension text. */
    function Name(): string {
      stem.Text() + ExtText(ext)
    }

    /** The file's full path as strings: its directory's components, then its name. */
    function Text(): seq<string> {
      dir.Text() + [Name()]
    }
  }

  /** os.path.join(dir, id): the directory an entity with identifier `id` gets inside `dir`. */
  function Join(dir: Path, id: Id): Path {
    Path(dir.root, dir.ids + [id])
  }

  /** The file's stem is the identifier its directory ends with. */
  predicate Colocated(f: File) {
    |f.dir.ids| > 0 && f.dir.ids[|f.dir.ids| - 1] == f.stem
  }

  /** Removes a known extension from a file name, if the name ends with it. */
  function StripExt(name: string, e: Ext): (r: Option<string>)
    ensures r.Some? ==> r.value + ExtText(e) == name
    ensures r.None? ==> forall stem :: stem + ExtText(e) != name
  {
    var x := ExtText(e);
    if |x| <= |name| && name[|name| - |x|..] == x then Some(name[..|name| - |x|])
    else
      assert forall stem :: (stem + x)[|stem + x| - |x|..] == x;
      None
  }

  /** Stripping the extension from a file name gives back its stem's text. */
  lemma NameRoundTrip(f: File)
    ensures StripExt(f.Name(), f.ext) == Some(f.stem.Text())
  {
    var n := f.Name();
    var x := ExtText(f.ext);
    assert n[|n| - |x|..] == x;
    assert n[..|n| - |x|] == f.stem.Text();
  }

  /**
   For a file placed in its entity's directory, the last component of its
   textual path with the extension stripped equals the component before it:
   the file and its directory share one stem.
   */
  lemma PathSharesStem(f: File)
    requires Colocated(f)
    ensures var p := f.Text();
      |p| >= 2 && StripExt(p[|p| - 1], f.ext) == Some(p[|p| - 2])
  {
    NameRoundTrip(f);
    var d := f.dir.Text();
    assert d[|d| - 1] == f.stem.Text();
  }

  /** Joining an identifier onto a directory appends that identifier's text to the directory's components. */
  lemma JoinText(dir: Path, id: Id)
    ensures Join(dir, id).Text() == dir.Text() + [id.Text()]
  {
    var l := Join(dir, id).Text();
    var r := dir.Text() + [id.Text()];
    assert |l| == |r|;
    forall k | 0 <= k < |l| ensures l[k] == r[k] {
      if 0 < k < |l| - 1 {
        assert Join(dir, id).ids[k - 1] == dir.ids[k - 1];
      }
    }
  }

  /** Joining an identifier and naming a file after it puts the file in that identifier's directory. */
  lemma EntityFileColocated(parent: Path, id: Id, ext: Ext)
    ensures Colocated(File(Join(parent, id), id, ext))
    ensures File(Join(parent, id), id, ext).Text() == parent.Text() + [id.Text(), id.Text() + ExtText(ext)]
  {
    JoinText(parent, id);
  }
}
