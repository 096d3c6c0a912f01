/**
 Data the mirroring loop works on: the album and track records of a saved-tracks
 page, the run configuration, the two in-run caches, and the effects the loop
 performs, recorded as an action log instead of being carried out.
 */
module Entities {
  import opened Maybe
  import opened Layout

  datatype Image = Image(url: string)

  /** An album as embedded in a track: `uri`, `name`, `total_tracks`, `images`. */
  datatype Album = Album(uri: string, name: string, totalTracks: nat, images: seq<Image>)

  /**
   A track: `uri`, `name`, `track_number`, `preview_url` (null in the remote
   payload becomes None) and the album it belongs to.
   */
  datatype Track = Track(uri: string, name: string, trackNumber: nat, previewUrl: Option<string>, album: Album)

  /** One entry of a saved-tracks page. */
  datatype Item = Item(track: Track)

  type Page = seq<Item>

  /** Output root and the two asset switches (`--album-image`, `--track-preview`). */
  datatype Config = Config(output: string, albumImage: bool, trackPreview: bool)

  /** The structured record written as a metadata file. */
  datatype Record = AlbumRecord(album: Album) | TrackRecord(track: Track)

  datatype Action =
    | Fetch(limit: nat, offset: nat)           // one request for a page of saved tracks
    | MakeDirs(dir: Path)                      // os.makedirs(dir, exist_ok=True)
    | SaveJson(file: File, record: Record)     // json.dump of the record into the file
    | SaveDownload(file: File, url: string)    // GET url, write the body into the file

  /** The URIs already written in this run, per entity kind. */
  datatype Caches = Caches(albums: set<string>, tracks: set<string>)

  /** What a stretch of the loop did, and the caches it left behind. */
  datatype Step = Step(log: seq<Action>, caches: Caches)
}
