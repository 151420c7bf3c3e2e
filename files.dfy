/**
 * The working directory the program uses as its cache and report store.
 * Each kind of JSON file is a map from its path to its decoded content;
 * the presence of a path is the only cache-hit signal.
 */
module Files {
  import opened Catalog
  import Ranking

  class Disk {
    /** `<userId>.playlists.json` files. */
    var playlistFiles: map<string, seq<Playlist>>
    /** `playlist-<name>/tracks.json` files. */
    var trackFiles: map<string, Tracklist>
    /** `playlist-<name>/features.json` files. */
    var featureFiles: map<string, seq<Song>>
    /** Ranking reports written by `writeOut`. */
    var reportFiles: map<string, seq<Ranking.RankedEntry>>

    /** An empty directory. */
    constructor()
      ensures playlistFiles == map[] && trackFiles == map[]
      ensures featureFiles == map[] && reportFiles == map[]
    {
      playlistFiles, trackFiles, featureFiles, reportFiles := map[], map[], map[], map[];
    }
  }
}
