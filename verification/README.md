# spotish saved-tracks mirror, modelled in Dafny

spotish mirrors a user's Spotify saved tracks to disk. Its `main` fetches the
saved-tracks listing in pages of 20, starting at offset 0, and stops at the
first page with no items. For every item it does the following:

- builds a composite identifier for the track and one for its album, each
  `"{count:02d}:{uri}:{name}"`;
- creates the album directory and the track directory inside it;
- the first time an album URI is seen in the run, writes the album's JSON and,
  if `--album-image` is on and the album has images, its first cover image;
- independently, the first time a track URI is seen, writes the track's JSON
  and, if `--track-preview` is on and the track has a preview URL, the preview.

"Seen" is tracked by two module-level sets, `album_cache` and `track_cache`.

The model has these parts:

- **Page source.** A finite `seq<Page>`. Page index `i` answers the request at
  offset `20 * i`, and every index at or past the end answers with an empty page.
- **Effects.** Every effect becomes an entry in an action log: `Fetch(limit,
  offset)`, `MakeDirs(dir)`, `SaveJson(file, record)` or `SaveDownload(file, url)`.
- **Paths.** A path is kept as a root plus a sequence of structured
  identifiers, each one path component. `Text()` renders a path to its
  component strings, the pieces `os.path.join` glues with '/'. This matches
  the directories created on disk only when no URI or name contains '/' (see
  "## Left out").

Modules:

- `Maybe`, `Ident`: the identifier format, its parser and round trip
  (`ident.dfy`).
- `Layout`: directories, files, extensions and the shared-stem property
  (`layout.dfy`).
- `Entities`: albums, tracks, items, configuration, records, actions and
  caches (`entities.dfy`).
- `Mirror`: the loop itself. It has a recursive functional form (`ProcessItem`,
  `ProcessPage`, `Loop`, `Run`) and an imperative form with an offset variable
  and a break (`MirrorSavedTracks`, `MirrorPage`). Both are in `mirror.dfy`.
- `MirrorSpec`: reference definitions that never consult the caches, plus
  views of a log (`mirror_spec.dfy`). The definitions say which pages are
  reached, which items are processed, which album or track comes first for a
  URI, where a record belongs, and which asset must follow a write. The views
  pick out the requests, the directories, the saves for one URI, and the
  track or album effects.
- `MirrorProofs`: item-, page- and loop-level lemmas connecting the loop to
  those references (`mirror_proofs.dfy`).
- `MirrorRun`: the properties of a whole run (`mirror_run.dfy`).
- `MirrorExamples`: worked runs (`mirror_examples.dfy`).

The loop functions carry no contracts of their own. What they promise is
stated in lemmas against the independent definitions in `MirrorSpec`.

## Model

| member | source | states |
|---|---|---|
| Ident.Decimal | spotish/__main__.py:253-256 | The decimal rendering of a count is a non-empty digit string. It has a single digit exactly when the count is below 10, and starts with '0' only for zero. |
| Ident.FormatCount | spotish/__main__.py:253-256 | `{:02d}` gives only digits and at least two characters. It gives exactly two for counts below 100, and the plain decimal rendering for counts of 10 or more. |
| Ident.Uuid | spotish/__main__.py:253-256 | An identifier is at least four characters longer than its URI and name together: two pad digits and two separators. |
| Ident.FormatCountRoundTrip | spotish/__main__.py:253-256 | Zero-padding never changes the value. Reading the padded count back as a decimal gives the count. |
| Ident.UuidRoundTrip | spotish/__main__.py:253-256 | Splitting an identifier at its first ':' recovers the count and leaves exactly `uri:name`, so the padded count never contains ':'. |
| Ident.UuidInjective | spotish/__main__.py:253-256 | Equal identifiers come from equal counts and equal `uri:name` tails. |
| Ident.FormatCountExamples | spotish/__main__.py:253-256 | The count 1 is written "01" and 12 is written "12". |
| Ident.UuidExample | spotish/__main__.py:255-256 | An album with total_tracks 1, uri "album:1" and name "Demo Album" gets the identifier "01:album:1:Demo Album". |
| Layout.StripExt | spotish/__main__.py:271 | Stripping an extension succeeds exactly when the name is some stem followed by that extension, and then returns that stem. |
| Layout.NameRoundTrip | spotish/__main__.py:271 | A file named `uuid + ext` gives back `uuid` when its extension is stripped. |
| Layout.PathSharesStem | spotish/__main__.py:259-264 | For a file inside its entity's directory, the last path component minus its extension equals the component before it. |
| Layout.JoinText | spotish/__main__.py:259 | Joining an identifier onto a directory appends that identifier's text as one more path component. |
| Layout.EntityFileColocated | spotish/__main__.py:259-264 | `join(join(parent, uuid), uuid + ext)` lies in the directory named `uuid`. Its textual path is the parent's components, then `uuid`, then `uuid + ext`. |
| Mirror.MirrorPage | spotish/__main__.py:244-304 | The inner `for item` loop, which threads the caches item by item, produces the log and caches of the functional page step. |
| Mirror.MirrorSavedTracks | spotish/__main__.py:232-307 | The `while True` loop produces the log and caches of `Run`. Its invariants keep `limit == 20` and `offset == 20 * i`, and every page before `i` is non-empty. |
| Mirror.TurnsThenLoop | spotish/__main__.py:234-307 | After n non-empty pages, the run is the first n turns followed by the loop from page n with the caches those turns left. |
| Mirror.RunStopsAt | spotish/__main__.py:238 | When page i is the first empty one, the run is the first i turns and then one final request at offset 20·i. Nothing is processed after it. |
| MirrorProofs.ItemDirsMade | spotish/__main__.py:259-264 | Whatever the cache state, an item makes `output/album_uuid` and then `output/album_uuid/track_uuid`. |
| MirrorProofs.ItemFetchesNone | spotish/__main__.py:244-304 | Processing an item issues no page request. |
| MirrorProofs.ItemAlbumSaves | spotish/__main__.py:267-275 | An item writes album metadata for URI u exactly when u is its album's URI and u is not cached. The write goes to the album's own JSON file. |
| MirrorProofs.ItemTrackSaves | spotish/__main__.py:287-295 | An item writes track metadata for URI u exactly when u is its track's URI and u is not cached. The album cache plays no part. |
| MirrorProofs.ItemEffects | spotish/__main__.py:267-304 | The track writes of an item depend only on the track cache, and its album writes only on the album cache. |
| MirrorProofs.RecordWritesViews | spotish/__main__.py:271-284 | A record write issues no request and makes no directory. It saves only that record's metadata, and all of it counts as effects of the record's own kind. |
| MirrorProofs.RecordWritesGated | spotish/__main__.py:278-284 | A metadata write followed by its optional asset respects the gating: an asset comes only right after the metadata write that calls for it. |
| MirrorProofs.ItemWellFormed | spotish/__main__.py:259-304 | Every file an item writes goes to its record's metadata path or next to it, inside a directory made earlier in the log. Every asset is properly gated. |
| MirrorProofs.PageCaches | spotish/__main__.py:20-23 | After a page, the caches are the old caches plus the album and track URIs of every item on the page. |
| MirrorProofs.PageDirs | spotish/__main__.py:244-264 | A page issues no request of its own. Its directories are the two per item, in item order. |
| MirrorProofs.PageAlbumSaves | spotish/__main__.py:267-275 | Within a page, album metadata for u is written once, for the first item whose album has URI u, unless u was cached before the page. |
| MirrorProofs.PageTrackSaves | spotish/__main__.py:287-295 | Within a page, track metadata for u is written once, for the first item with track URI u, unless u was cached before the page. |
| MirrorProofs.PageWellFormed | spotish/__main__.py:259-304 | A page's log respects the layout and the asset gating. |
| MirrorProofs.PageTrackEffects | spotish/__main__.py:287-304 | A page's track writes are the same for any two starting states with equal track caches. |
| MirrorProofs.PageAlbumEffects | spotish/__main__.py:267-284 | A page's album writes are the same for any two starting states with equal album caches. |
| MirrorProofs.FirstAlbumFound | spotish/__main__.py:267 | A first album with URI u exists exactly when u is among the items' album URIs, and it has URI u. |
| MirrorProofs.FirstTrackFound | spotish/__main__.py:287 | A first track with URI u exists exactly when u is among the items' track URIs, and it has URI u. |
| MirrorProofs.LeadingShape | spotish/__main__.py:234-238 | The pages the loop gets through from i are all non-empty, and the page right after them is empty. |
| MirrorProofs.LeadingAllFull | spotish/__main__.py:234-238 | If every page of the source is non-empty, the loop gets through all of them. |
| MirrorProofs.LoopFetches | spotish/__main__.py:232-238 | From page i, the loop requests offsets 20·i, 20·(i+1), … with limit 20. It makes one request per non-empty page it meets and one more for the empty page. |
| MirrorProofs.LoopCaches | spotish/__main__.py:267-268 | The caches the loop ends with are the ones it started with plus the URIs of every item it processes. |
| MirrorProofs.LoopDirs | spotish/__main__.py:259-264 | The directories the loop makes are exactly the two per processed item, in order. |
| MirrorProofs.LoopAlbumSaves | spotish/__main__.py:267-275 | Across pages, album metadata for u is written once, for the first album with URI u, unless u was cached at the start. |
| MirrorProofs.LoopTrackSaves | spotish/__main__.py:287-295 | Across pages, track metadata for u is written once, for the first track with URI u, even when the track reappears on a later page. |
| MirrorProofs.LoopWellFormed | spotish/__main__.py:259-304 | The loop's whole log respects the layout and the asset gating. |
| MirrorProofs.LoopTrackEffects | spotish/__main__.py:287-304 | Across pages, track writes are the same for any two starting states with equal track caches. |
| MirrorProofs.LoopAlbumEffects | spotish/__main__.py:267-284 | Across pages, album writes are the same for any two starting states with equal album caches. |
| MirrorRun.RunRequests | spotish/__main__.py:232-238 | A run requests offsets 0, 20, 40, … with limit 20. It stops after the first empty page, every earlier page being non-empty. |
| MirrorRun.RunRequestsFullPages | spotish/__main__.py:234-238 | With N pages, all non-empty, a run makes exactly N + 1 requests, the last at offset 20·N. |
| MirrorRun.RunCaches | spotish/__main__.py:20-23 | At the end of a run, the caches hold exactly the album and track URIs of the processed items. |
| MirrorRun.CachesOnlyGrow | spotish/__main__.py:268 | The loop never removes a URI from either cache. |
| MirrorRun.RunDirs | spotish/__main__.py:259-264 | Directories are made for every processed item, cached or not. |
| MirrorRun.RunAlbumWrittenOnce | spotish/__main__.py:267-275 | Album metadata for u is written once in a run, with the first album of that URI, if u occurs at all, and never otherwise. |
| MirrorRun.RunTrackWrittenOnce | spotish/__main__.py:287-295 | Track metadata for u is written once in a run, with the first track of that URI, if u occurs at all, and never otherwise. |
| MirrorRun.RunTracksIgnoreAlbumCache | spotish/__main__.py:287-304 | Starting with any album URIs already cached leaves a run's track writes unchanged. |
| MirrorRun.RunAlbumsIgnoreTrackCache | spotish/__main__.py:267-284 | Starting with any track URIs already cached leaves a run's album writes unchanged. |
| MirrorRun.RunWellFormed | spotish/__main__.py:259-304 | A whole run's log respects the layout and the asset gating. |
| MirrorRun.RunDownloads | spotish/__main__.py:278-284 | Every download follows the metadata write of its entity, and its switch is on. A cover is the album's first image saved as .jpg; a preview is the track's non-empty preview URL saved as .mp3. |
| MirrorRun.RunNoDownloadsWhenOff | spotish/__main__.py:278 | With both asset switches off, a run downloads nothing, even for albums with images and tracks with previews. |
| MirrorRun.RunPathStems | spotish/__main__.py:271 | Every file written lies under the output root, in a directory the run made earlier. Its name is that directory's name plus the extension. |
| MirrorExamples.MetadataPathText | spotish/__main__.py:259-291 | Album metadata goes to `output/<album id>/<album id>.json`. Track metadata goes to `output/<album id>/<track id>/<track id>.json`. |
| MirrorExamples.SingleTrackRun | spotish/__main__.py:232-307 | For one page with one track and both switches off, the log is: request offset 0, two directories, album JSON, track JSON, request offset 20. The album directory is "01:album:1:Demo Album". |
| MirrorExamples.DemoPaths | spotish/__main__.py:253-256 | In the worked example the track identifier is "01:track:1:Demo Track". The album JSON path is `tracks/01:album:1:Demo Album/01:album:1:Demo Album.json`, and the track JSON path is `tracks/01:album:1:Demo Album/01:track:1:Demo Track/01:track:1:Demo Track.json`. |
| MirrorExamples.SharedAlbumRun | spotish/__main__.py:267-295 | Two tracks of one album on a page produce one album write and one write for each track. |

## Left out

- Command-line parsing, help formatting, required-argument checks and `die`
  (spotish/__main__.py:25-32, 42-208): these are configuration concerns. The
  model takes a ready `Config` of output root and the two asset switches.
- OAuth token acquisition and the Spotify client (spotish/__main__.py:210-229,
  235): this is a foreign library over the network. The page source is an
  input sequence.
- `requests.get`, `open` and `json.dump`: actual network and filesystem I/O.
  They are recorded as `SaveDownload` and `SaveJson` actions. The written
  record is the album or track value itself, not its JSON text or indentation.
- Verbose `oplog` lines and the `--debug` raw-page dump (spotish/__main__.py:34-40,
  240-242, 272-273 and its siblings): these are print-only and affect no state.
- `os.path.join` string handling: paths are component sequences, and each
  identifier is treated as exactly one component. Every identifier starts with
  digits, so none is absolute. A '/' inside an album or track name or URI is
  not modelled. For example, an album named "Either/Or" becomes two nested
  directories on disk. Its JSON file (spotish/__main__.py:271, 274) then lands
  in a directory that `makedirs` never created, so `open` raises and the run
  aborts. The same happens for a track name at lines 291 and 294.
- MirrorRun.RunPathStems: holds of the component-path model only. It assumes
  no '/' in any URI or name; with one, the source crashes on the metadata
  write instead of writing into a directory it made earlier.
- Layout.PathSharesStem: same assumption; with a '/' in the identifier, the
  real file name's stem is only the text after the last '/'.
- Layout.JoinText: same assumption; with a '/' in the identifier, the join
  adds more than one real path component.
- Layout.EntityFileColocated: same assumption as Layout.JoinText.
- MirrorRun.RunWellFormed: its placement half (a file lies in a directory made
  earlier) carries the same '/' assumption.
- Ident.FormatCount: takes counts as naturals, so Python's rendering of a
  negative count (`'-1'`) is not modelled.
- Exceptions: the source aborts the run on any exception, with no failure
  path of its own. Examples are a failed connection, an unwritable file, or a
  record missing an expected field. The model has no failure path either:
  every request and write succeeds. An HTTP error status on an asset download
  raises nothing, because lines 282 and 302 never check the status. The
  response body is saved as the `.jpg` or `.mp3` and the run goes on.
  `SaveDownload(file, url)` records exactly that: whatever the GET returns is
  written.
- Filesystem overwrite semantics and `exist_ok=True`: the log records each
  `MakeDirs`, and re-creating a directory is not an error.
- The caches as module-level globals: a run starts with both caches empty. A
  second run in the same process, which would inherit the sets, is not
  modelled, although `Loop` takes arbitrary starting caches.
- The unbounded remote listing: the source has no cap on the offset. The model
  assumes a finite listing followed by empty pages. A listing that never
  returns an empty page, or that changes while it is being read, is not
  modelled.
- Album and track fields that the loop never reads are not represented.
