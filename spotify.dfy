/**
 * The fetch layer (`Spotify`): a user's playlists, all tracks of a playlist
 * by offset pagination, their audio features in batches of ten, and batched
 * insertion of tracks into a playlist.  Each fetch first looks for its cache
 * file and, on a miss, stores what it computed.
 *
 * The remote catalog service is the value `remote`: three total functions.
 * Every remote call and every pause is appended to the ghost log `calls`.
 */
module SpotifyClient {
  import opened Wrappers
  import opened Catalog
  import opened Chunking
  import opened Files

  /** Items requested per playlist page. */
  const PageLimit: nat := 50
  /** Track ids per audio-feature lookup. */
  const FeatureBatch: nat := 10
  /** URIs per add-items call. */
  const InsertBatch: nat := 75
  /** The pause after each add-items call, in milliseconds. */
  const PauseMs: nat := 800

  /**
   * The remote service: the signed-in user's profile id, users' playlists, a
   * page of a playlist's items (id, limit, offset), a batch feature lookup,
   * playlist creation (user id, the new playlist's details).
   */
  datatype Remote = Remote(
    profileId: string,
    usersPlaylists: string -> seq<Playlist>,
    playlistItems: (string, nat, nat) -> Page,
    audioFeatures: seq<TrackId> -> seq<AudioFeatures>,
    createPlaylist: (string, PlaylistDetails) -> Playlist)

  /** The body of a playlist-creation request. */
  datatype PlaylistDetails = PlaylistDetails(name: string, public: bool, collaborative: bool, description: string)

  /** `createPlaylist` always asks for a public, non-collaborative playlist with this description. */
  function NewPlaylist(name: string): (d: PlaylistDetails)
    ensures d.name == name && d.public && !d.collaborative && d.description == "Generated Automatically"
  {
    PlaylistDetails(name, true, false, "Generated Automatically")
  }

  /** What the client asks of the outside world, in order. */
  datatype Event =
    | CurrentUserProfile
    | ListPlaylists(userId: string)
    | GetPlaylistItems(playlistId: string, limit: nat, offset: nat)
    | GetAudioFeatures(ids: seq<TrackId>)
    | AddItems(playlistId: string, uris: seq<string>)
    | CreateUserPlaylist(userId: string, details: PlaylistDetails)
    | Pause(ms: nat)

  /** A feature record whose id is not a key of the tracklist (`tracks[f.id].name` throws). */
  datatype FetchError = UnknownTrack(id: TrackId)

  /** `build` found no user id: "Failed to get current Spotify user". */
  datatype ClientError = NoCurrentUser

  /** `userId || profile.id`: the given id unless it is missing or empty, then the profile's. */
  function ResolveUserId(given: Option<string>, profileId: string): (r: Result<string, ClientError>)
    ensures given.Some? && given.value != "" ==> r == Ok(given.value)
    ensures given.None? || given.value == "" ==> (r.Ok? <==> profileId != "") && (r.Ok? ==> r.value == profileId)
    ensures r.Err? ==> r.error == NoCurrentUser
  {
    var id := if given.Some? && given.value != "" then given.value else profileId;
    if id == "" then Err(NoCurrentUser) else Ok(id)
  }

  function PlaylistsKey(userId: string): string {
    userId + ".playlists.json"
  }

  function TracksKey(playlistName: string): string {
    "playlist-" + playlistName + "/tracks.json"
  }

  function FeaturesKey(playlistName: string): string {
    "playlist-" + playlistName + "/features.json"
  }

  // ---------------------------------------------------------------- pagination

  /** The k-th page: limit 50, offset 50 * k. */
  function PageAt(remote: Remote, playlistId: string, k: nat): Page {
    remote.playlistItems(playlistId, PageLimit, PageLimit * k)
  }

  /** Some page of the playlist reports no further page (the playlist is finite). */
  ghost predicate PagingEnds(remote: Remote, playlistId: string) {
    exists k: nat :: !PageAt(remote, playlistId, k).next
  }

  /** Exactly n pages are fetched: every page before the n-th reports `next`, the n-th does not. */
  ghost predicate FetchedPages(remote: Remote, playlistId: string, n: nat) {
    n >= 1 &&
    (forall k :: 0 <= k < n - 1 ==> PageAt(remote, playlistId, k).next) &&
    !PageAt(remote, playlistId, n - 1).next
  }

  /** The page requests 0 .. n-1. */
  function PageRequests(playlistId: string, n: nat): seq<Event> {
    seq(n, k requires 0 <= k < n => GetPlaylistItems(playlistId, PageLimit, PageLimit * k))
  }

  /** One more page request extends the requests by the request at the next offset. */
  lemma PageRequestsNext(playlistId: string, n: nat)
    ensures PageRequests(playlistId, n + 1) == PageRequests(playlistId, n) + [GetPlaylistItems(playlistId, PageLimit, PageLimit * n)]
  {
  }

  function ArtistNames(artists: seq<Artist>): seq<string> {
    seq(|artists|, i requires 0 <= i < |artists| => artists[i].name)
  }

  function TrackOf(item: PlaylistItem): Track {
    Track(item.id, item.name, ArtistNames(item.artists), item.uri)
  }

  /** The page's `items.reduce` into a Tracklist: each item under its id, a later item overwriting an earlier one. */
  function PageTracks(items: seq<PlaylistItem>): Tracklist
    decreases |items|
  {
    if items == [] then map[]
    else PageTracks(items[..|items| - 1])[items[|items| - 1].id := TrackOf(items[|items| - 1])]
  }

  /** The Tracklist after pages 0 .. n-1 were merged with `Object.assign` (later pages overwrite). */
  function Merged(remote: Remote, playlistId: string, n: nat): Tracklist {
    if n == 0 then map[]
    else Merged(remote, playlistId, n - 1) + PageTracks(PageAt(remote, playlistId, n - 1).items)
  }

  /** The number of pages fetched is determined by the service. */
  lemma FetchedPagesUnique(remote: Remote, playlistId: string, n: nat, m: nat)
    requires FetchedPages(remote, playlistId, n) && FetchedPages(remote, playlistId, m)
    ensures n == m
  {
  }

  /** A page's Tracklist holds exactly the ids of the page's items. */
  lemma {:induction false} PageTracksKeys(items: seq<PlaylistItem>)
    ensures PageTracks(items).Keys == PageIds(items)
    decreases |items|
  {
    if items != [] {
      var init := items[..|items| - 1];
      var last := |items| - 1;
      PageTracksKeys(init);
      var ids := PageIds(items);
      var initIds := PageIds(init);
      forall x | x in ids ensures x in initIds + {items[last].id} {
        var i :| 0 <= i < |items| && items[i].id == x;
        if i < last { assert init[i].id == x; }
      }
      forall x | x in initIds ensures x in ids {
        var i :| 0 <= i < |init| && init[i].id == x;
        assert items[i].id == x;
      }
      assert ids == initIds + {items[last].id};
    }
  }

  /** Within a page, an id's entry is the last item carrying that id. */
  lemma {:induction false} PageTracksLastWins(items: seq<PlaylistItem>, i: nat)
    requires i < |items|
    requires forall j :: i < j < |items| ==> items[j].id != items[i].id
    ensures items[i].id in PageTracks(items) && PageTracks(items)[items[i].id] == TrackOf(items[i])
    decreases |items|
  {
    if i < |items| - 1 {
      var init := items[..|items| - 1];
      assert init[i] == items[i];
      PageTracksLastWins(init, i);
    }
  }

  /** Every track is stored under its own id. */
  lemma {:induction false} MergedKeyedById(remote: Remote, playlistId: string, n: nat)
    ensures forall id :: id in Merged(remote, playlistId, n) ==> Merged(remote, playlistId, n)[id].id == id
  {
    if n > 0 {
      MergedKeyedById(remote, playlistId, n - 1);
      PageKeyedById(PageAt(remote, playlistId, n - 1).items);
    }
  }

  lemma {:induction false} PageKeyedById(items: seq<PlaylistItem>)
    ensures forall id :: id in PageTracks(items) ==> PageTracks(items)[id].id == id
    decreases |items|
  {
    if items != [] {
      PageKeyedById(items[..|items| - 1]);
    }
  }

  /** The ids of a page's items. */
  function PageIds(items: seq<PlaylistItem>): set<TrackId> {
    set i | 0 <= i < |items| :: items[i].id
  }

  /** The ids on pages 0 .. n-1. */
  function FetchedIds(remote: Remote, playlistId: string, n: nat): set<TrackId> {
    if n == 0 then {} else FetchedIds(remote, playlistId, n - 1) + PageIds(PageAt(remote, playlistId, n - 1).items)
  }

  /** An id was fetched exactly when some item of some page 0 .. n-1 carries it. */
  lemma {:induction false} FetchedIdsOccur(remote: Remote, playlistId: string, n: nat, id: TrackId)
    ensures id in FetchedIds(remote, playlistId, n) <==>
      exists k, i :: 0 <= k < n && 0 <= i < |PageAt(remote, playlistId, k).items| && PageAt(remote, playlistId, k).items[i].id == id
  {
    if n > 0 {
      FetchedIdsOccur(remote, playlistId, n - 1, id);
      var items := PageAt(remote, playlistId, n - 1).items;
      if id in PageIds(items) {
        var i :| 0 <= i < |items| && items[i].id == id;
        assert PageAt(remote, playlistId, n - 1).items[i].id == id;
      }
    }
  }

  /** The merged Tracklist has one entry per distinct track id across the fetched pages. */
  lemma {:induction false} MergedKeys(remote: Remote, playlistId: string, n: nat)
    ensures Merged(remote, playlistId, n).Keys == FetchedIds(remote, playlistId, n)
  {
    if n > 0 {
      MergedKeys(remote, playlistId, n - 1);
      PageTracksKeys(PageAt(remote, playlistId, n - 1).items);
    }
  }

  /** The id does not occur on pages k .. n-1. */
  ghost predicate AbsentFrom(remote: Remote, playlistId: string, id: TrackId, k: nat, n: nat) {
    forall k', j :: k <= k' < n && 0 <= j < |PageAt(remote, playlistId, k').items| ==>
      PageAt(remote, playlistId, k').items[j].id != id
  }

  /** A track id's entry comes from its last occurrence: a later page overwrites an earlier one. */
  lemma {:induction false} MergedLastWins(remote: Remote, playlistId: string, n: nat, k: nat, i: nat)
    requires k < n && i < |PageAt(remote, playlistId, k).items|
    requires var items := PageAt(remote, playlistId, k).items;
      forall j :: i < j < |items| ==> items[j].id != items[i].id
    requires AbsentFrom(remote, playlistId, PageAt(remote, playlistId, k).items[i].id, k + 1, n)
    ensures var item := PageAt(remote, playlistId, k).items[i];
      item.id in Merged(remote, playlistId, n) && Merged(remote, playlistId, n)[item.id] == TrackOf(item)
  {
    var item := PageAt(remote, playlistId, k).items[i];
    var page := PageAt(remote, playlistId, n - 1).items;
    if k == n - 1 {
      PageTracksLastWins(page, i);
    } else {
      MergedLastWins(remote, playlistId, n - 1, k, i);
      PageTracksKeys(page);
      assert item.id !in PageTracks(page);
    }
  }

  // ---------------------------------------------------------------- feature lookup

  /** The Tracklist's keys in some enumeration order, each once (`Object.keys`). */
  ghost predicate IsKeyOrder(ids: seq<TrackId>, tracks: Tracklist) {
    (forall i, j :: 0 <= i < j < |ids| ==> ids[i] != ids[j]) &&
    (forall id :: id in ids <==> id in tracks)
  }

  /** A feature record extended with its track's name and artists. */
  function Joined(f: AudioFeatures, tracks: Tracklist): Song
    requires f.id in tracks
  {
    Song(f, tracks[f.id].name, tracks[f.id].artists)
  }

  /** `features.map(f => ({...f, name: tracks[f.id].name, artists: tracks[f.id].artists}))`. */
  function JoinWithTracks(features: seq<AudioFeatures>, tracks: Tracklist): (r: Result<seq<Song>, FetchError>)
    ensures r.Ok? <==> forall i :: 0 <= i < |features| ==> features[i].id in tracks
    ensures r.Ok? ==> (|r.value| == |features| &&
      forall i :: 0 <= i < |features| ==> features[i].id in tracks && r.value[i] == Joined(features[i], tracks))
    ensures r.Err? ==> exists i :: 0 <= i < |features| && features[i].id !in tracks && r.error == UnknownTrack(features[i].id)
    decreases |features|
  {
    if features == [] then Ok([])
    else if features[0].id !in tracks then Err(UnknownTrack(features[0].id))
    else
      match JoinWithTracks(features[1..], tracks)
      case Err(e) => Err(e)
      case Ok(rest) => Ok([Joined(features[0], tracks)] + rest)
  }

  /** The outcome of the batch loop and the events it caused. */
  datatype Run = Run(result: Result<seq<Song>, FetchError>, events: seq<Event>)

  /** One lookup per batch, in order; the loop stops at the first batch that returns an unknown id. */
  function FeatureRun(remote: Remote, batches: seq<seq<TrackId>>, tracks: Tracklist): Run
    decreases |batches|
  {
    if batches == [] then Run(Ok([]), [])
    else
      var call := GetAudioFeatures(batches[0]);
      var joined := JoinWithTracks(remote.audioFeatures(batches[0]), tracks);
      if joined.Err? then Run(Err(joined.error), [call])
      else
        var rest := FeatureRun(remote, batches[1..], tracks);
        Run(if rest.result.Ok? then Ok(joined.value + rest.result.value) else rest.result, [call] + rest.events)
  }

  /** A run preceded by already collected songs and events. */
  function After(songs: seq<Song>, events: seq<Event>, run: Run): Run {
    Run(if run.result.Ok? then Ok(songs + run.result.value) else run.result, events + run.events)
  }

  lemma AfterNothing(run: Run)
    ensures After([], [], run) == run
  {
    assert [] + run.events == run.events;
    if run.result.Ok? {
      assert [] + run.result.value == run.result.value;
    }
  }

  lemma AfterAfter(a: seq<Song>, ea: seq<Event>, b: seq<Song>, eb: seq<Event>, run: Run)
    ensures After(a, ea, After(b, eb, run)) == After(a + b, ea + eb, run)
  {
    assert ea + (eb + run.events) == (ea + eb) + run.events;
    if run.result.Ok? {
      assert a + (b + run.result.value) == (a + b) + run.result.value;
    }
  }

  /** The batch loop from position i: one lookup of the next batch, then the rest. */
  lemma FeatureRunFrom(remote: Remote, ids: seq<TrackId>, i: nat, tracks: Tracklist)
    requires i < |ids|
    ensures var chunk := ids[i..Min(i + FeatureBatch, |ids|)];
      var joined := JoinWithTracks(remote.audioFeatures(chunk), tracks);
      var later := FeatureRun(remote, Chunks(ids[Min(i + FeatureBatch, |ids|)..], FeatureBatch), tracks);
      FeatureRun(remote, Chunks(ids[Min(i, |ids|)..], FeatureBatch), tracks) ==
        if joined.Err? then Run(Err(joined.error), [GetAudioFeatures(chunk)])
        else After(joined.value, [GetAudioFeatures(chunk)], later)
  {
    var rest := ids[i..];
    var chunk := ids[i..Min(i + FeatureBatch, |ids|)];
    assert rest[..Min(FeatureBatch, |rest|)] == chunk;
    assert rest[Min(FeatureBatch, |rest|)..] == ids[Min(i + FeatureBatch, |ids|)..];
    assert Chunks(rest, FeatureBatch) == [chunk] + Chunks(ids[Min(i + FeatureBatch, |ids|)..], FeatureBatch);
  }

  /**
   * The batch loop's invariant: the whole run is the songs and events collected
   * so far followed by the run over the ids from position i on.
   */
  ghost predicate RunProgress(remote: Remote, ids: seq<TrackId>, tracks: Tracklist, i: nat, songs: seq<Song>, events: seq<Event>) {
    FeatureRun(remote, Chunks(ids, FeatureBatch), tracks)
      == After(songs, events, FeatureRun(remote, Chunks(ids[Min(i, |ids|)..], FeatureBatch), tracks))
  }

  /** One pass of the batch loop, stated on the loop's running songs and events. */
  lemma BatchStep(remote: Remote, ids: seq<TrackId>, i: nat, tracks: Tracklist, songs: seq<Song>, events: seq<Event>)
    requires i < |ids|
    requires RunProgress(remote, ids, tracks, i, songs, events)
    ensures var chunk := ids[i..Min(i + FeatureBatch, |ids|)];
      var joined := JoinWithTracks(remote.audioFeatures(chunk), tracks);
      if joined.Err? then FeatureRun(remote, Chunks(ids, FeatureBatch), tracks).result == Err(joined.error) &&
        FeatureRun(remote, Chunks(ids, FeatureBatch), tracks).events == events + [GetAudioFeatures(chunk)]
      else RunProgress(remote, ids, tracks, i + FeatureBatch, songs + joined.value, events + [GetAudioFeatures(chunk)])
  {
    var chunk := ids[i..Min(i + FeatureBatch, |ids|)];
    FeatureRunFrom(remote, ids, i, tracks);
    var joined := JoinWithTracks(remote.audioFeatures(chunk), tracks);
    if joined.Ok? {
      AfterAfter(songs, events, joined.value, [GetAudioFeatures(chunk)],
        FeatureRun(remote, Chunks(ids[Min(i + FeatureBatch, |ids|)..], FeatureBatch), tracks));
    }
  }

  /** Once the loop index passes the end, the run is exactly what the loop collected. */
  lemma BatchEnd(remote: Remote, ids: seq<TrackId>, i: nat, tracks: Tracklist, songs: seq<Song>, events: seq<Event>)
    requires i >= |ids|
    requires RunProgress(remote, ids, tracks, i, songs, events)
    ensures FeatureRun(remote, Chunks(ids, FeatureBatch), tracks).result == Ok(songs)
    ensures FeatureRun(remote, Chunks(ids, FeatureBatch), tracks).events == events
  {
    assert ids[Min(i, |ids|)..] == [];
    assert songs + [] == songs;
    assert events + [] == events;
  }

  /** The loop starts with nothing collected. */
  lemma BatchStart(remote: Remote, ids: seq<TrackId>, tracks: Tracklist)
    ensures RunProgress(remote, ids, tracks, 0, [], [])
  {
    assert ids[Min(0, |ids|)..] == ids;
    AfterNothing(FeatureRun(remote, Chunks(ids, FeatureBatch), tracks));
  }

  /** Every record the service returns for the batches, in order. */
  function Returned(remote: Remote, batches: seq<seq<TrackId>>): seq<AudioFeatures>
    decreases |batches|
  {
    if batches == [] then [] else remote.audioFeatures(batches[0]) + Returned(remote, batches[1..])
  }

  function FeatureRequests(batches: seq<seq<TrackId>>): seq<Event> {
    seq(|batches|, k requires 0 <= k < |batches| => GetAudioFeatures(batches[k]))
  }

  ghost predicate AllKnown(features: seq<AudioFeatures>, tracks: Tracklist) {
    forall i :: 0 <= i < |features| ==> features[i].id in tracks
  }

  lemma AllKnownAppend(a: seq<AudioFeatures>, b: seq<AudioFeatures>, tracks: Tracklist)
    ensures AllKnown(a + b, tracks) <==> AllKnown(a, tracks) && AllKnown(b, tracks)
  {
    if AllKnown(a, tracks) && AllKnown(b, tracks) {
      forall i | 0 <= i < |a + b| ensures (a + b)[i].id in tracks {
        if i >= |a| { assert (a + b)[i] == b[i - |a|]; }
      }
    }
    if AllKnown(a + b, tracks) {
      forall i | 0 <= i < |a| ensures a[i].id in tracks {
        assert (a + b)[i] == a[i];
      }
      forall i | 0 <= i < |b| ensures b[i].id in tracks {
        assert (a + b)[|a| + i] == b[i];
      }
    }
  }

  /** The batch loop succeeds exactly when every record the service returns has the id of a listed track. */
  lemma {:induction false} FeatureRunSucceeds(remote: Remote, batches: seq<seq<TrackId>>, tracks: Tracklist)
    ensures FeatureRun(remote, batches, tracks).result.Ok? <==> AllKnown(Returned(remote, batches), tracks)
    decreases |batches|
  {
    if batches != [] {
      FeatureRunSucceeds(remote, batches[1..], tracks);
      AllKnownAppend(remote.audioFeatures(batches[0]), Returned(remote, batches[1..]), tracks);
    }
  }

  /** A successful batch loop issued one lookup per batch, in batch order. */
  lemma {:induction false} FeatureRunRequests(remote: Remote, batches: seq<seq<TrackId>>, tracks: Tracklist)
    requires FeatureRun(remote, batches, tracks).result.Ok?
    ensures FeatureRun(remote, batches, tracks).events == FeatureRequests(batches)
    decreases |batches|
  {
    if batches != [] {
      FeatureRunRequests(remote, batches[1..], tracks);
      assert FeatureRequests(batches) == [GetAudioFeatures(batches[0])] + FeatureRequests(batches[1..]);
    }
  }

  /** A successful batch loop outputs every returned record, in order, joined with its track's name and artists. */
  lemma {:induction false} FeatureRunOutput(remote: Remote, batches: seq<seq<TrackId>>, tracks: Tracklist)
    requires FeatureRun(remote, batches, tracks).result.Ok?
    ensures var songs := FeatureRun(remote, batches, tracks).result.value;
      var all := Returned(remote, batches);
      |songs| == |all| &&
      forall i :: 0 <= i < |all| ==> all[i].id in tracks && songs[i] == Joined(all[i], tracks)
    decreases |batches|
  {
    if batches != [] {
      FeatureRunOutput(remote, batches[1..], tracks);
      var first := remote.audioFeatures(batches[0]);
      var joined := JoinWithTracks(first, tracks).value;
      var rest := FeatureRun(remote, batches[1..], tracks).result.value;
      var songs := FeatureRun(remote, batches, tracks).result.value;
      var all := Returned(remote, batches);
      assert songs == joined + rest;
      assert all == first + Returned(remote, batches[1..]);
      forall i | 0 <= i < |all| ensures all[i].id in tracks && songs[i] == Joined(all[i], tracks) {
        if i >= |first| {
          assert all[i] == Returned(remote, batches[1..])[i - |first|];
          assert songs[i] == rest[i - |first|];
        } else {
          assert all[i] == first[i];
          assert songs[i] == joined[i];
        }
      }
    }
  }

  /** The batches of the track ids in key order: their number is ceil(n / 10), each holds 1 to 10 ids, and together they are the key list. */
  lemma FeatureBatches(ids: seq<TrackId>)
    ensures var batches := Chunks(ids, FeatureBatch);
      |batches| == (|ids| + FeatureBatch - 1) / FeatureBatch &&
      Flatten(batches) == ids &&
      forall k :: 0 <= k < |batches| ==> 0 < |batches[k]| <= FeatureBatch
  {
    ChunkCountCeiling(ids, FeatureBatch);
    ChunksCover(ids, FeatureBatch);
    ChunkSizes(ids, FeatureBatch);
  }

  /** 25 ids take three lookups, of 10, 10 and 5 ids, in the original order. */
  lemma TwentyFiveIds(ids: seq<TrackId>)
    requires |ids| == 25
    ensures Chunks(ids, FeatureBatch) == [ids[..10], ids[10..20], ids[20..]]
  {
    var r1 := ids[10..];
    var r2 := r1[10..];
    assert r1[..10] == ids[10..20];
    assert r2 == ids[20..];
    assert r2[5..] == [];
    assert Chunks(r2, FeatureBatch) == [r2[..5]] + Chunks(r2[5..], FeatureBatch);
    assert r2[..5] == r2;
  }

  // ---------------------------------------------------------------- insertion

  /** One add-items call per batch, each followed by a pause. */
  function InsertEvents(playlistId: string, batches: seq<seq<string>>): seq<Event>
    decreases |batches|
  {
    if batches == [] then []
    else [AddItems(playlistId, batches[0]), Pause(PauseMs)] + InsertEvents(playlistId, batches[1..])
  }

  /**
   * Inserting n URIs makes ceil(n / 75) add-items calls, in order, each of at
   * most 75 URIs, each followed by an 800 ms pause; together the calls carry
   * exactly the URI list.
   */
  lemma {:induction false} InsertEventsShape(playlistId: string, uris: seq<string>)
    ensures var batches := Chunks(uris, InsertBatch);
      var events := InsertEvents(playlistId, batches);
      |batches| == (|uris| + InsertBatch - 1) / InsertBatch &&
      Flatten(batches) == uris &&
      |events| == 2 * |batches| &&
      forall k :: 0 <= k < |batches| ==>
        events[2 * k] == AddItems(playlistId, batches[k]) && 0 < |batches[k]| <= InsertBatch &&
        events[2 * k + 1] == Pause(PauseMs)
  {
    var batches := Chunks(uris, InsertBatch);
    ChunkCountCeiling(uris, InsertBatch);
    ChunksCover(uris, InsertBatch);
    ChunkSizes(uris, InsertBatch);
    InsertEventsAt(playlistId, batches);
  }

  lemma {:induction false} InsertEventsAt(playlistId: string, batches: seq<seq<string>>)
    ensures |InsertEvents(playlistId, batches)| == 2 * |batches|
    ensures forall k :: 0 <= k < |batches| ==>
      InsertEvents(playlistId, batches)[2 * k] == AddItems(playlistId, batches[k]) &&
      InsertEvents(playlistId, batches)[2 * k + 1] == Pause(PauseMs)
    decreases |batches|
  {
    if batches != [] {
      InsertEventsAt(playlistId, batches[1..]);
      var events := InsertEvents(playlistId, batches);
      var rest := InsertEvents(playlistId, batches[1..]);
      forall k | 0 <= k < |batches|
        ensures events[2 * k] == AddItems(playlistId, batches[k]) && events[2 * k + 1] == Pause(PauseMs)
      {
        if k > 0 {
          assert events[2 * k] == rest[2 * (k - 1)];
          assert events[2 * k + 1] == rest[2 * (k - 1) + 1];
        }
      }
    }
  }

  /** One pass of the insertion loop: the batch at i, its pause, then the batches from i + 75. */
  lemma InsertStep(playlistId: string, uris: seq<string>, i: nat)
    requires i < |uris|
    ensures InsertEvents(playlistId, Chunks(uris[Min(i, |uris|)..], InsertBatch)) ==
      [AddItems(playlistId, uris[i..Min(i + InsertBatch, |uris|)]), Pause(PauseMs)] +
      InsertEvents(playlistId, Chunks(uris[Min(i + InsertBatch, |uris|)..], InsertBatch))
  {
    var rest := uris[i..];
    assert rest[..Min(InsertBatch, |rest|)] == uris[i..Min(i + InsertBatch, |uris|)];
    assert rest[Min(InsertBatch, |rest|)..] == uris[Min(i + InsertBatch, |uris|)..];
  }

  /** The insertion loop's invariant: the calls so far followed by the batches from i give the whole run. */
  ghost predicate InsertProgress(playlistId: string, uris: seq<string>, i: nat, before: seq<Event>, now: seq<Event>) {
    before + InsertEvents(playlistId, Chunks(uris, InsertBatch))
      == now + InsertEvents(playlistId, Chunks(uris[Min(i, |uris|)..], InsertBatch))
  }

  lemma InsertAdvance(playlistId: string, uris: seq<string>, i: nat, before: seq<Event>, now: seq<Event>)
    requires i < |uris|
    requires InsertProgress(playlistId, uris, i, before, now)
    ensures InsertProgress(playlistId, uris, i + InsertBatch, before,
      now + [AddItems(playlistId, uris[i..Min(i + InsertBatch, |uris|)])] + [Pause(PauseMs)])
  {
    InsertStep(playlistId, uris, i);
    var step := [AddItems(playlistId, uris[i..Min(i + InsertBatch, |uris|)]), Pause(PauseMs)];
    var later := InsertEvents(playlistId, Chunks(uris[Min(i + InsertBatch, |uris|)..], InsertBatch));
    assert now + (step + later) == now + [step[0]] + [step[1]] + later;
  }

  lemma InsertDone(playlistId: string, uris: seq<string>, i: nat, before: seq<Event>, now: seq<Event>)
    requires i >= |uris|
    requires InsertProgress(playlistId, uris, i, before, now)
    ensures now == before + InsertEvents(playlistId, Chunks(uris, InsertBatch))
  {
    assert uris[Min(i, |uris|)..] == [];
    assert now + [] == now;
  }

  // ---------------------------------------------------------------- the client

  /** `Object.keys(tracks)`: the ids of the Tracklist in some order, each exactly once. */
  method TrackIds(tracks: Tracklist) returns (ids: seq<TrackId>)
    ensures IsKeyOrder(ids, tracks)
  {
    ids := [];
    var rest := tracks.Keys;
    while rest != {}
      invariant rest <= tracks.Keys
      invariant forall i, j :: 0 <= i < j < |ids| ==> ids[i] != ids[j]
      invariant forall id :: id in ids <==> id in tracks && id !in rest
      decreases |rest|
    {
      var id :| id in rest;
      ids := ids + [id];
      rest := rest - {id};
    }
  }

  class Spotify {
    const userId: string
    /** The directory holding the cache files. */
    const disk: Disk
    /** Every remote call and pause so far. */
    ghost var calls: seq<Event>

    constructor(userId: string, disk: Disk)
      ensures this.userId == userId && this.disk == disk && calls == []
    {
      this.userId := userId;
      this.disk := disk;
      calls := [];
    }

    /** `getAllPlaylists`: the cached listing, or one listing call whose result is then cached. */
    method GetAllPlaylists(remote: Remote) returns (playlists: seq<Playlist>)
      modifies this`calls, disk`playlistFiles
      ensures var key := PlaylistsKey(userId);
        if key in old(disk.playlistFiles) then
          playlists == old(disk.playlistFiles)[key] &&
          calls == old(calls) && disk.playlistFiles == old(disk.playlistFiles)
        else
          playlists == remote.usersPlaylists(userId) &&
          calls == old(calls) + [ListPlaylists(userId)] &&
          disk.playlistFiles == old(disk.playlistFiles)[key := playlists]
      ensures PlaylistsKey(userId) in disk.playlistFiles && disk.playlistFiles[PlaylistsKey(userId)] == playlists
    {
      var key := PlaylistsKey(userId);
      if key in disk.playlistFiles {
        return disk.playlistFiles[key];
      }
      playlists := remote.usersPlaylists(userId);
      calls := calls + [ListPlaylists(userId)];
      disk.playlistFiles := disk.playlistFiles[key := playlists];
    }

    /**
     * `getAllPlaylistTracks`: the cached Tracklist, or the merge of every page,
     * requested with limit 50 at offsets 0, 50, 100, ... for as long as the
     * previous page reported `next`; the result is then cached.
     */
    method GetAllPlaylistTracks(remote: Remote, playlist: Playlist) returns (tracks: Tracklist, ghost pages: nat)
      requires TracksKey(playlist.name) !in disk.trackFiles ==> PagingEnds(remote, playlist.id)
      modifies this`calls, disk`trackFiles
      ensures var key := TracksKey(playlist.name);
        if key in old(disk.trackFiles) then
          tracks == old(disk.trackFiles)[key] &&
          calls == old(calls) && disk.trackFiles == old(disk.trackFiles)
        else
          FetchedPages(remote, playlist.id, pages) &&
          calls == old(calls) + PageRequests(playlist.id, pages) &&
          tracks == Merged(remote, playlist.id, pages) &&
          disk.trackFiles == old(disk.trackFiles)[key := tracks]
      ensures TracksKey(playlist.name) in disk.trackFiles && disk.trackFiles[TracksKey(playlist.name)] == tracks
    {
      var key := TracksKey(playlist.name);
      if key in disk.trackFiles {
        return disk.trackFiles[key], 0;
      }
      var offset: nat := 0;
      var page := remote.playlistItems(playlist.id, PageLimit, offset);
      calls := calls + [GetPlaylistItems(playlist.id, PageLimit, offset)];
      tracks := map[];
      tracks := tracks + PageTracks(page.items);
      ghost var k: nat := 0;
      ghost var bound: nat :| !PageAt(remote, playlist.id, bound).next;
      PageRequestsNext(playlist.id, 0);
      assert PageRequests(playlist.id, 0) == [];
      while page.next
        invariant offset == PageLimit * k && k <= bound
        invariant page == PageAt(remote, playlist.id, k)
        invariant forall j :: 0 <= j < k ==> PageAt(remote, playlist.id, j).next
        invariant tracks == Merged(remote, playlist.id, k + 1)
        invariant calls == old(calls) + PageRequests(playlist.id, k + 1)
        invariant disk.trackFiles == old(disk.trackFiles)
        decreases bound - k
      {
        offset := offset + PageLimit;
        page := remote.playlistItems(playlist.id, PageLimit, offset);
        calls := calls + [GetPlaylistItems(playlist.id, PageLimit, offset)];
        tracks := tracks + PageTracks(page.items);
        PageRequestsNext(playlist.id, k + 1);
        k := k + 1;
      }
      pages := k + 1;
      disk.trackFiles := disk.trackFiles[key := tracks];
    }

    /**
     * `getTracklistFeatures`: the cached features, or one lookup per batch of
     * ten ids in key order, each record joined with its track's name and
     * artists; on success the result is then cached.
     */
    method GetTracklistFeatures(remote: Remote, playlist: Playlist, tracks: Tracklist)
      returns (r: Result<seq<Song>, FetchError>, ghost ids: seq<TrackId>)
      modifies this`calls, disk`featureFiles
      ensures var key := FeaturesKey(playlist.name);
        if key in old(disk.featureFiles) then
          r == Ok(old(disk.featureFiles)[key]) &&
          calls == old(calls) && disk.featureFiles == old(disk.featureFiles)
        else
          var run := FeatureRun(remote, Chunks(ids, FeatureBatch), tracks);
          IsKeyOrder(ids, tracks) &&
          r == run.result && calls == old(calls) + run.events &&
          disk.featureFiles == if r.Ok? then old(disk.featureFiles)[key := r.value] else old(disk.featureFiles)
      ensures r.Ok? ==> FeaturesKey(playlist.name) in disk.featureFiles && disk.featureFiles[FeaturesKey(playlist.name)] == r.value
    {
      var key := FeaturesKey(playlist.name);
      if key in disk.featureFiles {
        return Ok(disk.featureFiles[key]), [];
      }
      var trackIds := TrackIds(tracks);
      ids := trackIds;
      r := LookUpBatches(remote, trackIds, tracks);
      if r.Ok? {
        disk.featureFiles := disk.featureFiles[key := r.value];
      }
    }

    /** The loop of `getTracklistFeatures`: for i = 0, 10, 20, ... look up ids[i..i+10] and append the joined records. */
    method LookUpBatches(remote: Remote, trackIds: seq<TrackId>, tracks: Tracklist) returns (r: Result<seq<Song>, FetchError>)
      modifies this`calls
      ensures var run := FeatureRun(remote, Chunks(trackIds, FeatureBatch), tracks);
        r == run.result && calls == old(calls) + run.events
    {
      var allFeatures: seq<Song> := [];
      ghost var events: seq<Event> := [];
      var i: nat := 0;
      BatchStart(remote, trackIds, tracks);
      while i < |trackIds|
        invariant calls == old(calls) + events
        invariant RunProgress(remote, trackIds, tracks, i, allFeatures, events)
      {
        var chunk := trackIds[i..Min(i + FeatureBatch, |trackIds|)];
        BatchStep(remote, trackIds, i, tracks, allFeatures, events);
        var features := remote.audioFeatures(chunk);
        calls := calls + [GetAudioFeatures(chunk)];
        events := events + [GetAudioFeatures(chunk)];
        var joined := JoinWithTracks(features, tracks);
        if joined.Err? {
          return Err(joined.error);
        }
        allFeatures := allFeatures + joined.value;
        i := i + FeatureBatch;
      }
      BatchEnd(remote, trackIds, i, tracks, allFeatures, events);
      r := Ok(allFeatures);
    }

    /** `createPlaylist`: one creation call for a public, non-collaborative playlist of the user. */
    method CreatePlaylist(remote: Remote, playlistName: string) returns (playlist: Playlist)
      modifies this`calls
      ensures playlist == remote.createPlaylist(userId, NewPlaylist(playlistName))
      ensures calls == old(calls) + [CreateUserPlaylist(userId, NewPlaylist(playlistName))]
    {
      var details := PlaylistDetails(playlistName, true, false, "Generated Automatically");
      playlist := remote.createPlaylist(userId, details);
      calls := calls + [CreateUserPlaylist(userId, details)];
    }

    /** `addTracksToPlaylist`: the URIs in batches of 75, one add-items call per batch, each followed by a pause. */
    method AddTracksToPlaylist(playlistId: string, trackUris: seq<string>)
      modifies this`calls
      ensures calls == old(calls) + InsertEvents(playlistId, Chunks(trackUris, InsertBatch))
    {
      var i: nat := 0;
      while i < |trackUris|
        invariant InsertProgress(playlistId, trackUris, i, old(calls), calls)
      {
        var chunk := trackUris[i..Min(i + InsertBatch, |trackUris|)];
        InsertAdvance(playlistId, trackUris, i, old(calls), calls);
        calls := calls + [AddItems(playlistId, chunk)];
        calls := calls + [Pause(PauseMs)];
        i := i + InsertBatch;
      }
      InsertDone(playlistId, trackUris, i, old(calls), calls);
    }
  }

  /**
   * `Spotify.build`: a client for the given user id, or for the signed-in
   * user when none (or an empty one) is given, which costs one profile call.
   */
  method BuildClient(disk: Disk, remote: Remote, given: Option<string>) returns (r: Result<Spotify, ClientError>)
    ensures var id := ResolveUserId(given, remote.profileId);
      r.Ok? <==> id.Ok?
    ensures r.Err? ==> r.error == NoCurrentUser
    ensures r.Ok? ==> fresh(r.value) && r.value.disk == disk && Ok(r.value.userId) == ResolveUserId(given, remote.profileId)
    ensures r.Ok? ==> r.value.calls == if given.Some? && given.value != "" then [] else [CurrentUserProfile]
  {
    var userId: string;
    ghost var calls: seq<Event> := [];
    if given.Some? && given.value != "" {
      userId := given.value;
    } else {
      userId := remote.profileId;
      calls := [CurrentUserProfile];
    }
    if userId == "" {
      return Err(NoCurrentUser);
    }
    var s := new Spotify(userId, disk);
    s.calls := calls;
    r := Ok(s);
  }

  /** A second fetch of the same playlist reads the cache: same Tracklist, no remote call. */
  method FetchTracksTwice(client: Spotify, remote: Remote, playlist: Playlist)
    returns (first: Tracklist, second: Tracklist, ghost pages: nat)
    requires TracksKey(playlist.name) !in client.disk.trackFiles ==> PagingEnds(remote, playlist.id)
    modifies client, client.disk
    ensures first == second
    ensures client.calls == old(client.calls) +
      (if TracksKey(playlist.name) in old(client.disk.trackFiles) then [] else PageRequests(playlist.id, pages))
  {
    first, pages := client.GetAllPlaylistTracks(remote, playlist);
    ghost var between := client.calls;
    ghost var again;
    second, again := client.GetAllPlaylistTracks(remote, playlist);
    assert client.calls == between;
    if TracksKey(playlist.name) in old(client.disk.trackFiles) {
      assert client.calls == old(client.calls) + [];
    }
  }
}
