/**
 * The ranking pipeline (`TracklistFeatures`): find a playlist by name, load
 * its tracks and audio features through the client, rank the tracks by one
 * feature or by a combination of features, and write the ranking report.
 */
module Pipeline {
  import opened Wrappers
  import opened Catalog
  import opened Ranking
  import opened Files
  import opened SpotifyClient
  import opened Chunking

  /** Why `build` gives up: no playlist of that name, or a feature record for an unlisted track. */
  datatype BuildError =
    | PlaylistNotFound(playlistName: string, userId: string)
    | FetchFailed(cause: FetchError)

  /** `getTrackUri` on an id that is not in the Tracklist reads `.uri` of undefined and throws. */
  datatype LookupError = MissingTrack(id: TrackId)

  /** `playlists.filter(p => p.name === name)[0]`: the first playlist with that name. */
  function FirstNamed(playlists: seq<Playlist>, name: string): (r: Option<Playlist>)
    ensures r.None? <==> forall i :: 0 <= i < |playlists| ==> playlists[i].name != name
    ensures r.Some? ==> exists i :: (0 <= i < |playlists| && playlists[i] == r.value && r.value.name == name &&
      forall j :: 0 <= j < i ==> playlists[j].name != name)
    decreases |playlists|
  {
    if playlists == [] then None
    else if playlists[0].name == name then Some(playlists[0])
    else
      var r := FirstNamed(playlists[1..], name);
      assert forall i :: 1 <= i < |playlists| ==> playlists[i] == playlists[1..][i - 1];
      r
  }

  /** The Tracklist `build` ends up with: the cached file, or the merge of the pages fetched. */
  ghost function TracksAfter(remote: Remote, playlist: Playlist, cached: map<string, Tracklist>, pages: nat): Tracklist {
    if TracksKey(playlist.name) in cached then cached[TracksKey(playlist.name)] else Merged(remote, playlist.id, pages)
  }

  /** The feature records `build` ends up with: the cached file, or the outcome of the batch loop over the ids. */
  ghost function FeaturesAfter(remote: Remote, playlist: Playlist, cached: map<string, seq<Song>>, tracks: Tracklist,
                               ids: seq<TrackId>): Result<seq<Song>, FetchError> {
    if FeaturesKey(playlist.name) in cached then Ok(cached[FeaturesKey(playlist.name)])
    else FeatureRun(remote, Chunks(ids, FeatureBatch), tracks).result
  }

  /** The requests and pauses `build` makes once the playlist is found: page requests on a tracks miss, then the batch loop's on a features miss. */
  ghost function LoadEvents(remote: Remote, playlist: Playlist, cachedTracks: map<string, Tracklist>,
                            cachedFeatures: map<string, seq<Song>>, tracks: Tracklist, pages: nat, ids: seq<TrackId>): seq<Event> {
    (if TracksKey(playlist.name) in cachedTracks then [] else PageRequests(playlist.id, pages)) +
    (if FeaturesKey(playlist.name) in cachedFeatures then [] else FeatureRun(remote, Chunks(ids, FeatureBatch), tracks).events)
  }

  /**
   * What the second half of `build` does to the cache files `t0`/`f0` and the
   * request log `c0`, leaving `t1`/`f1`/`c1`: the Tracklist and feature files
   * are filled from the cache or the service, the requests of the misses are
   * logged, and the outcome is the Tracklist with its records or the batch
   * loop's error.
   */
  ghost predicate Loaded(remote: Remote, playlist: Playlist,
                         t0: map<string, Tracklist>, f0: map<string, seq<Song>>, c0: seq<Event>,
                         t1: map<string, Tracklist>, f1: map<string, seq<Song>>, c1: seq<Event>,
                         pages: nat, ids: seq<TrackId>, outcome: Result<(Tracklist, seq<Song>), BuildError>) {
    var tracks := TracksAfter(remote, playlist, t0, pages);
    var features := FeaturesAfter(remote, playlist, f0, tracks, ids);
    (TracksKey(playlist.name) !in t0 ==> FetchedPages(remote, playlist.id, pages)) &&
    (FeaturesKey(playlist.name) !in f0 ==> IsKeyOrder(ids, tracks)) &&
    t1 == t0[TracksKey(playlist.name) := tracks] &&
    f1 == (if FeaturesKey(playlist.name) in f0 || features.Err? then f0 else f0[FeaturesKey(playlist.name) := features.value]) &&
    c1 == c0 + LoadEvents(remote, playlist, t0, f0, tracks, pages, ids) &&
    outcome == if features.Ok? then Ok((tracks, features.value)) else Err(FetchFailed(features.error))
  }

  class TracklistFeatures {
    const client: Spotify
    var playlist: Option<Playlist>
    var tracklist: Tracklist
    var tracklistFeatures: seq<Song>

    constructor(client: Spotify)
      ensures this.client == client
      ensures playlist == None && tracklist == map[] && tracklistFeatures == []
    {
      this.client := client;
      playlist := None;
      tracklist := map[];
      tracklistFeatures := [];
    }

    /**
     * `build`: the first playlist of the user with the given name, its
     * Tracklist and its feature records, each read through the client's cache.
     */
    static method Build(client: Spotify, playlistName: string, remote: Remote)
      returns (r: Result<TracklistFeatures, BuildError>, ghost pages: nat, ghost ids: seq<TrackId>)
      requires forall playlistId :: PagingEnds(remote, playlistId)
      modifies client`calls, client.disk`playlistFiles, client.disk`trackFiles, client.disk`featureFiles
      ensures PlaylistsKey(client.userId) in client.disk.playlistFiles
      ensures client.disk.playlistFiles == old(client.disk.playlistFiles)[PlaylistsKey(client.userId) :=
        if PlaylistsKey(client.userId) in old(client.disk.playlistFiles) then old(client.disk.playlistFiles)[PlaylistsKey(client.userId)]
        else remote.usersPlaylists(client.userId)]
      ensures client.disk.reportFiles == old(client.disk.reportFiles)
      ensures var found := FirstNamed(client.disk.playlistFiles[PlaylistsKey(client.userId)], playlistName);
        var listing := if PlaylistsKey(client.userId) in old(client.disk.playlistFiles) then [] else [ListPlaylists(client.userId)];
        found.None? ==>
          r == Err(PlaylistNotFound(playlistName, client.userId)) &&
          client.calls == old(client.calls) + listing &&
          client.disk.trackFiles == old(client.disk.trackFiles) &&
          client.disk.featureFiles == old(client.disk.featureFiles)
      ensures var found := FirstNamed(client.disk.playlistFiles[PlaylistsKey(client.userId)], playlistName);
        var listing := if PlaylistsKey(client.userId) in old(client.disk.playlistFiles) then [] else [ListPlaylists(client.userId)];
        found.Some? ==>
          Loaded(remote, found.value,
            old(client.disk.trackFiles), old(client.disk.featureFiles), old(client.calls) + listing,
            client.disk.trackFiles, client.disk.featureFiles, client.calls, pages, ids,
            if r.Ok? then Ok((r.value.tracklist, r.value.tracklistFeatures)) else Err(r.error)) &&
          (r.Ok? ==> fresh(r.value) && r.value.client == client && r.value.playlist == found)
    {
      var playlists := client.GetAllPlaylists(remote);
      var found := FirstNamed(playlists, playlistName);
      if found.None? {
        return Err(PlaylistNotFound(playlistName, client.userId)), 0, [];
      }
      r, pages, ids := Load(client, found.value, remote);
    }

    /** The second half of `build`: the found playlist, its Tracklist and its feature records. */
    static method Load(client: Spotify, playlist: Playlist, remote: Remote)
      returns (r: Result<TracklistFeatures, BuildError>, ghost pages: nat, ghost ids: seq<TrackId>)
      requires PagingEnds(remote, playlist.id)
      modifies client`calls, client.disk`trackFiles, client.disk`featureFiles
      ensures client.disk.playlistFiles == old(client.disk.playlistFiles)
      ensures client.disk.reportFiles == old(client.disk.reportFiles)
      ensures Loaded(remote, playlist,
        old(client.disk.trackFiles), old(client.disk.featureFiles), old(client.calls),
        client.disk.trackFiles, client.disk.featureFiles, client.calls, pages, ids,
        if r.Ok? then Ok((r.value.tracklist, r.value.tracklistFeatures)) else Err(r.error))
      ensures r.Ok? ==> fresh(r.value) && r.value.client == client && r.value.playlist == Some(playlist)
    {
      var tracklist, features;
      tracklist, features, pages, ids := Fetch(client, playlist, remote);
      if features.Err? {
        r := Err(FetchFailed(features.error));
        return;
      }
      var tlf := new TracklistFeatures(client);
      tlf.playlist := Some(playlist);
      tlf.tracklist := tracklist;
      tlf.tracklistFeatures := features.value;
      r := Ok(tlf);
    }

    /** The two client calls of `build`: the playlist's Tracklist, then its feature records. */
    static method Fetch(client: Spotify, playlist: Playlist, remote: Remote)
      returns (tracklist: Tracklist, features: Result<seq<Song>, FetchError>, ghost pages: nat, ghost ids: seq<TrackId>)
      requires PagingEnds(remote, playlist.id)
      modifies client`calls, client.disk`trackFiles, client.disk`featureFiles
      ensures Loaded(remote, playlist,
        old(client.disk.trackFiles), old(client.disk.featureFiles), old(client.calls),
        client.disk.trackFiles, client.disk.featureFiles, client.calls, pages, ids,
        if features.Ok? then Ok((tracklist, features.value)) else Err(FetchFailed(features.error)))
    {
      tracklist, pages := client.GetAllPlaylistTracks(remote, playlist);
      features, ids := client.GetTracklistFeatures(remote, playlist, tracklist);
    }

    /** `getTrackUri`: the URI of a listed track. */
    function GetTrackUri(trackId: TrackId): (r: Result<string, LookupError>)
      reads this
      ensures r.Ok? <==> trackId in tracklist
      ensures r.Ok? ==> r.value == tracklist[trackId].uri
      ensures r.Err? ==> r.error == MissingTrack(trackId)
    {
      if trackId in tracklist then Ok(tracklist[trackId].uri) else Err(MissingTrack(trackId))
    }

    /**
     * `getUrisForTracks`: the URIs of the ids, in the same order; it fails on
     * the first id that is not listed.
     */
    function GetUrisForTracks(trackIds: seq<TrackId>): (r: Result<seq<string>, LookupError>)
      reads this
      ensures r.Ok? <==> forall i :: 0 <= i < |trackIds| ==> trackIds[i] in tracklist
      ensures r.Ok? ==> (|r.value| == |trackIds| &&
        forall i :: 0 <= i < |trackIds| ==> r.value[i] == tracklist[trackIds[i]].uri)
      ensures r.Err? ==> exists i :: (0 <= i < |trackIds| && trackIds[i] !in tracklist &&
        r.error == MissingTrack(trackIds[i]) && forall j :: 0 <= j < i ==> trackIds[j] in tracklist)
      decreases |trackIds|
    {
      if trackIds == [] then Ok([])
      else
        match GetTrackUri(trackIds[0])
        case Err(e) => Err(e)
        case Ok(uri) =>
          var rest := GetUrisForTracks(trackIds[1..]);
          assert forall i :: 1 <= i < |trackIds| ==> trackIds[i] == trackIds[1..][i - 1];
          if rest.Err? then rest else Ok([uri] + rest.value)
    }

    /**
     * `sortBySingleFeature`: one entry per feature record carrying the chosen
     * value, ordered from the largest value down.
     */
    function SortBySingleFeature(f: Feature): (es: seq<RankedEntry>)
      reads this
      ensures |es| == |tracklistFeatures|
      ensures multiset(es) == multiset(SingleEntries(tracklistFeatures, f))
      ensures forall e :: e in es ==> exists song :: song in tracklistFeatures && e == SingleEntryOf(song, f)
      ensures NonIncreasing(es)
      ensures multiset(EntryIds(es)) == multiset(SongIds(tracklistFeatures))
    {
      var entries := SingleEntries(tracklistFeatures, f);
      SortDescPermutes(entries);
      SortDescSorted(entries);
      IdsOfPermutation(SortDesc(entries), entries);
      assert EntryIds(entries) == SongIds(tracklistFeatures);
      assert forall e :: e in SortDesc(entries) ==> exists song :: song in tracklistFeatures && e == SingleEntryOf(song, f) by {
        forall e | e in SortDesc(entries) ensures exists song :: song in tracklistFeatures && e == SingleEntryOf(song, f) {
          assert e in multiset(entries);
          var i :| 0 <= i < |entries| && entries[i] == e;
          assert tracklistFeatures[i] in tracklistFeatures;
        }
      }
      assert |SortDesc(entries)| == |multiset(SortDesc(entries))| == |multiset(entries)| == |entries|;
      SortDesc(entries)
    }

    /**
     * `sortByFeatureCombo`: one entry per feature record carrying its score
     * under the combinator and every selected value, ordered from the highest
     * score down.
     */
    function SortByFeatureCombo(feats: seq<Feature>, sf: ScoringFunction): (es: seq<RankedEntry>)
      reads this
      requires sf == Average ==> |feats| > 0
      ensures |es| == |tracklistFeatures|
      ensures multiset(es) == multiset(ComboEntries(tracklistFeatures, feats, sf))
      ensures forall e :: e in es ==> exists song :: song in tracklistFeatures && e == ComboEntryOf(song, feats, sf)
      ensures NonIncreasing(es)
      ensures multiset(EntryIds(es)) == multiset(SongIds(tracklistFeatures))
    {
      var entries := ComboEntries(tracklistFeatures, feats, sf);
      SortDescPermutes(entries);
      SortDescSorted(entries);
      IdsOfPermutation(SortDesc(entries), entries);
      assert EntryIds(entries) == SongIds(tracklistFeatures);
      assert forall e :: e in SortDesc(entries) ==> exists song :: song in tracklistFeatures && e == ComboEntryOf(song, feats, sf) by {
        forall e | e in SortDesc(entries) ensures exists song :: song in tracklistFeatures && e == ComboEntryOf(song, feats, sf) {
          assert e in multiset(entries);
          var i :| 0 <= i < |entries| && entries[i] == e;
          assert tracklistFeatures[i] in tracklistFeatures;
        }
      }
      assert |SortDesc(entries)| == |multiset(SortDesc(entries))| == |multiset(entries)| == |entries|;
      SortDesc(entries)
    }

    /**
     * The ranking `sortByFeature` computes: by the single feature when one is
     * given, otherwise by the combinator's score over all of them.
     */
    function Ranked(feats: seq<Feature>, sf: Option<ScoringFunction>): (es: seq<RankedEntry>)
      reads this
      requires |feats| >= 1
      requires |feats| > 1 ==> sf.Some?
      ensures NonIncreasing(es)
      ensures multiset(EntryIds(es)) == multiset(SongIds(tracklistFeatures))
      ensures |feats| == 1 ==> multiset(es) == multiset(SingleEntries(tracklistFeatures, feats[0]))
      ensures |feats| > 1 ==> multiset(es) == multiset(ComboEntries(tracklistFeatures, feats, sf.value))
    {
      if |feats| > 1 then SortByFeatureCombo(feats, sf.value) else SortBySingleFeature(feats[0])
    }

    /** `writeOut`: the ranking is stored at `playlist-<name>/<features>[-<combinator>].json`. */
    method WriteOut(feats: seq<Feature>, data: seq<RankedEntry>, sf: Option<ScoringFunction>)
      requires playlist.Some?
      modifies client.disk`reportFiles
      ensures client.disk.reportFiles == old(client.disk.reportFiles)[ReportPath(playlist.value.name, feats, sf) := data]
    {
      var path := ReportPath(playlist.value.name, feats, sf);
      client.disk.reportFiles := client.disk.reportFiles[path := data];
    }

    /**
     * `sortByFeature`: ranks the tracks, writes the report, and returns the
     * track ids in ranked order, each feature record's id exactly once.
     */
    method SortByFeature(feats: seq<Feature>, sf: Option<ScoringFunction>) returns (ids: seq<TrackId>)
      requires |feats| >= 1
      requires |feats| > 1 ==> sf.Some?
      requires playlist.Some?
      modifies client.disk`reportFiles
      ensures ids == EntryIds(Ranked(feats, sf))
      ensures multiset(ids) == multiset(SongIds(tracklistFeatures))
      ensures client.disk.reportFiles == old(client.disk.reportFiles)[ReportPath(playlist.value.name, feats, sf) := Ranked(feats, sf)]
    {
      var sorted := if |feats| > 1 then SortByFeatureCombo(feats, sf.value) else SortBySingleFeature(feats[0]);
      WriteOut(feats, sorted, sf);
      ids := EntryIds(sorted);
    }
  }
}
