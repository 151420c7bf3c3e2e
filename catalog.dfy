/**
 * The catalog entities the fetch layer and the ranking engine exchange:
 * playlists, tracks, per-track audio features, and the ten comparable
 * feature names.  Feature values are exact reals, not IEEE doubles.
 */
module Catalog {
  import opened Wrappers

  type TrackId = string

  /** The comparable audio features, in the order of the `Features` list. */
  datatype Feature =
    | Acousticness | Danceability | DurationMs | Energy | Instrumentalness
    | Liveness | Loudness | Speechiness | Tempo | Valence

  /** The `Features` list of names. */
  const FeatureNames: seq<string> := [
    "acousticness", "danceability", "duration_ms", "energy", "instrumentalness",
    "liveness", "loudness", "speechiness", "tempo", "valence"
  ]

  /** The property name under which a feature is stored in an audio-feature record. */
  function FeatureName(f: Feature): (name: string)
    ensures '+' !in name && '-' !in name && name != []
  {
    match f
    case Acousticness => "acousticness"
    case Danceability => "danceability"
    case DurationMs => "duration_ms"
    case Energy => "energy"
    case Instrumentalness => "instrumentalness"
    case Liveness => "liveness"
    case Loudness => "loudness"
    case Speechiness => "speechiness"
    case Tempo => "tempo"
    case Valence => "valence"
  }

  /** The feature a comparable name denotes (the type guard `feat is ComparableFeature`). */
  function ParseFeature(s: string): (r: Option<Feature>)
    ensures r.Some? <==> s in FeatureNames
    ensures r.Some? ==> FeatureName(r.value) == s
  {
    if s == "acousticness" then Some(Acousticness)
    else if s == "danceability" then Some(Danceability)
    else if s == "duration_ms" then Some(DurationMs)
    else if s == "energy" then Some(Energy)
    else if s == "instrumentalness" then Some(Instrumentalness)
    else if s == "liveness" then Some(Liveness)
    else if s == "loudness" then Some(Loudness)
    else if s == "speechiness" then Some(Speechiness)
    else if s == "tempo" then Some(Tempo)
    else if s == "valence" then Some(Valence)
    else None
  }

  /** Every feature's name parses back to that feature. */
  lemma ParseFeatureName(f: Feature)
    ensures ParseFeature(FeatureName(f)) == Some(f)
  {
  }

  /** The `Features` list holds exactly the names of the `Feature` values. */
  lemma NamesListed(s: string)
    ensures s in FeatureNames <==> exists f: Feature :: FeatureName(f) == s
  {
    if s in FeatureNames {
      assert FeatureName(ParseFeature(s).value) == s;
    }
    if exists f: Feature :: FeatureName(f) == s {
      var f: Feature :| FeatureName(f) == s;
      ParseFeatureName(f);
    }
  }

  /** `IsComparableFeature`: membership in the `Features` list, i.e. exactly the names of `Feature` values. */
  function IsComparableFeature(s: string): (b: bool)
    ensures b <==> exists f: Feature :: FeatureName(f) == s
  {
    NamesListed(s);
    s in FeatureNames
  }

  /** Distinct features have distinct names, so a name determines its feature. */
  lemma FeatureNameInjective(f: Feature, g: Feature)
    requires FeatureName(f) == FeatureName(g)
    ensures f == g
  {
  }

  /** A user's playlist, as the playlist listing returns it. */
  datatype Playlist = Playlist(id: string, name: string)

  datatype Artist = Artist(name: string)

  /** The `track` of a playlist item, restricted to the requested fields. */
  datatype PlaylistItem = PlaylistItem(id: TrackId, name: string, artists: seq<Artist>, uri: string)

  /** One page of playlist items; `next` says whether the service has a further page. */
  datatype Page = Page(items: seq<PlaylistItem>, next: bool)

  /** A `Tracklist` entry. */
  datatype Track = Track(id: TrackId, name: string, artists: seq<string>, uri: string)

  /** `Tracklist`: tracks keyed by their id. */
  type Tracklist = map<TrackId, Track>

  /** An audio-feature record as the batch lookup returns it (comparable fields only). */
  datatype AudioFeatures = AudioFeatures(
    id: TrackId,
    acousticness: real, danceability: real, durationMs: real, energy: real,
    instrumentalness: real, liveness: real, loudness: real, speechiness: real,
    tempo: real, valence: real)

  /** `Song`: an audio-feature record joined with its track's name and artists. */
  datatype Song = Song(features: AudioFeatures, name: string, artists: seq<string>) {
    function Id(): TrackId {
      features.id
    }
  }

  /** `song[f]`: the value a song holds for a comparable feature. */
  function Value(s: Song, f: Feature): real {
    match f
    case Acousticness => s.features.acousticness
    case Danceability => s.features.danceability
    case DurationMs => s.features.durationMs
    case Energy => s.features.energy
    case Instrumentalness => s.features.instrumentalness
    case Liveness => s.features.liveness
    case Loudness => s.features.loudness
    case Speechiness => s.features.speechiness
    case Tempo => s.features.tempo
    case Valence => s.features.valence
  }
}
