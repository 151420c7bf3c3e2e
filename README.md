# splaysort in Dafny

splaysort ranks the tracks of a user's music-service playlist by their audio
features. It finds the playlist by name, then fetches every track page by
page and the tracks' audio-feature records in batches of ten. Each fetch is
cached in a JSON file. The tracks are then sorted from the highest value
down, either by one feature or by a score that combines several features
(their average or their product, rounded to four decimals). The ranking is
written to a report file, and the ranked tracks can be added to a playlist
in batches of 75. Credentials come from a `.env` file. The service client
authenticates with a token kept in a one-slot in-memory cache.

The Dafny project models that core:

- `text.dfy` (`Text`): the JavaScript string operations the program relies
  on. These are `trim` (ECMAScript white space and line terminators),
  `split` on one character, and `join`.
- `chunking.dfy` (`Chunking`): the `slice(i, i + size)` loop pattern, as a
  list of consecutive chunks.
- `catalog.dfy` (`Catalog`): the data model. It holds the ten comparable
  features, playlists, page items, the Tracklist (a map from track id to
  track) and feature records joined with their track's name and artists.
- `ranking.dfy` (`Ranking`): the pure part of `lib.ts`. This covers the two
  score combinators with JavaScript's `Math.round`, the ranked entries, the
  descending sort and the report path.
- `files.dfy` (`Files`): the working directory as a `Disk` object. Each kind
  of JSON file is a map from path to content, and a path being present is a
  cache hit.
- `spotify.dfy` (`SpotifyClient`): the `Spotify` class. The remote service
  is a value `remote` made of total functions. Every remote call and pause
  is appended to a ghost log `calls`, so the contracts state exactly which
  requests are made, in which order.
- `pipeline.dfy` (`Pipeline`): the `TracklistFeatures` class.
- `config.dfy` (`Config`): the `.env` reader.
- `cache.dfy` (`Cache`) and `auth.dfy` (`Auth`): the token cache and the
  authentication strategy.

Every loop of the source is a Dafny `while` loop proved against a
specification function. Each specification function has lemmas proving the
properties the program promises:
- pages: `Merged`, `FetchedPages`;
- feature batches: `FeatureRun`;
- insert batches: `InsertEvents`;
- `.env` lines: `Load`.

Behaviour of the code that the model keeps:
- `Math.round` rounds halves toward +∞, so -2.5 gives -2.
- The comparators never answer "equal", so entries with equal keys end up in no particular order.
- A later page overwrites an earlier page's entry for the same id (`Object.assign`).
- There is a pause after every add-items call, the last one included.
- The playlists listing is a single call, so only the first page of the user's playlists is read.
- With exactly one feature and a combinator, the single-feature sort is used but the file name still carries the combinator.

## Model

| member | source | states |
|---|---|---|
| Text.Trim | config.ts:13 | `trim`: the text without its leading and trailing ECMAScript white space and line terminators (characterised by the Trim lemmas below) |
| Text.Split | config.ts:14-15 | `split` on one character: at least one piece, no piece holds the separator, and joining the pieces with it gives back the input |
| Text.SplitAtFirst | config.ts:15 | the text before the first separator is the first piece and the rest is split on its own |
| Text.SplitHead | config.ts:15 | the first piece ends at the first separator or at the end of the text |
| Text.Join | lib.ts:125 | `join`: the parts in order with the separator between neighbours, "" for no parts |
| Text.SplitJoin | lib.ts:125-126 | splitting a join of non-empty, separator-free parts gives the parts back |
| Text.IndexOf | config.ts:15 | the position of the first occurrence of a character |
| Text.TrimStartDropsLeadingSpace | config.ts:13 | `trim` at the front drops only white space and stops at the first other character |
| Text.TrimEndDropsTrailingSpace | config.ts:13 | `trim` at the back drops only white space and stops at the last other character |
| Text.TrimStartAfterSpace | config.ts:13 | leading white space does not change the trimmed start |
| Text.TrimStartAppend | config.ts:13 | trimming the front of a text with a non-space character leaves the appended tail alone |
| Text.TrimEndBeforeSpace | config.ts:13 | trailing white space does not change the trimmed end |
| Text.TrimIgnoresSurroundingSpace | config.ts:13 | white space around a text does not change its `trim` |
| Chunking.Chunks | spotify.ts:155-156 | the slices `s.slice(i, i + size)` for i = 0, size, 2·size, … below the length, in order (also the 75-URI loop at spotify.ts:194-195) |
| Chunking.ChunksCover | spotify.ts:155-156 | the chunks concatenate to the whole list, in order |
| Chunking.ChunkSizes | spotify.ts:155-156 | every chunk holds 1 to `size` elements, and all but the last hold exactly `size` |
| Chunking.ChunkCount | spotify.ts:155 | the chunk count c satisfies (c-1)·size < n <= c·size |
| Chunking.ChunkCountCeiling | spotify.ts:155 | the loop makes ceil(n / size) passes |
| Catalog.FeatureName | spotify.ts:16-27 | each feature's name is non-empty and free of '+' and '-' |
| Catalog.NamesListed | spotify.ts:16-27 | the `Features` list holds exactly the feature names |
| Catalog.IsComparableFeature | spotify.ts:31-35 | holds exactly when the string is the name of a feature |
| Catalog.ParseFeature | spotify.ts:29-35 | the type guard: a feature exactly for the strings of the `Features` list, the one with that name |
| Catalog.ParseFeatureName | spotify.ts:16-35 | every feature's name is accepted by the guard and denotes that feature again |
| Catalog.FeatureNameInjective | spotify.ts:16-27 | distinct features have distinct names |
| Ranking.JsRound | lib.ts:18 | `Math.round` gives the integer within half of x, taking the upper one at a tie |
| Ranking.JsRoundHalves | lib.ts:18 | halves go up: 2.5 gives 3, -2.5 gives -2, and -2.6 gives -3 |
| Ranking.Round4 | lib.ts:18-21 | `round(x·10000)/10000` has at most four decimals and is within 0.00005 of x |
| Ranking.Round4Unique | lib.ts:18-21 | the four-decimal value within half a unit of x is unique |
| Ranking.Round4Idempotent | lib.ts:18-21 | rounding a rounded value changes nothing |
| Ranking.SumFoldIsTotal | lib.ts:19 | the `reduce` with `+` from `acc` is `acc` plus the sum of the selected values |
| Ranking.ProductFoldIsProduct | lib.ts:24 | the `reduce` with `*` from `acc` is `acc` times the product of the selected values |
| Ranking.ProductFoldStep | lib.ts:24 | one step of the `*` reduce |
| Ranking.AverageFeatures | lib.ts:17-21 | `averageFeatures` is the mean of the selected values, rounded once to four decimals |
| Ranking.MultiplyFeatures | lib.ts:23-25 | `multiplyFeatures` is the product of the selected values (1 for none), rounded once to four decimals |
| Ranking.Score | lib.ts:27-30 | the scoring function named by the combinator (`ScoringFunctions[scoringFunc]`, applied at lib.ts:97): the rounded average or the rounded product of the selected values |
| Ranking.CombinatorExample | lib.ts:27-30 | values 2 and 4 average to 3 and multiply to 8 |
| Ranking.SingleEntryOf | lib.ts:76-83 | the object built per song in `sortBySingleFeature`: its id, name and artists with the one feature's value |
| Ranking.ComboEntryOf | lib.ts:92-102 | the object built per song in `sortByFeatureCombo`: its id, name, artists, the combinator's score and each selected feature's value |
| Ranking.SortDesc | lib.ts:84 | the `.sort` with the descending comparator (also lib.ts:104), as insertion of each entry into the sorted rest |
| Ranking.InsertPermutes | lib.ts:84 | inserting an entry adds exactly that entry |
| Ranking.InsertSorted | lib.ts:84 | inserting into a descending list keeps it descending |
| Ranking.SortDescPermutes | lib.ts:84 | the sort is a permutation of its input |
| Ranking.SortDescSorted | lib.ts:84 | the sort output is ordered from the largest key down |
| Ranking.EntryIdsAppend | lib.ts:116 | the ids of two lists of entries, concatenated |
| Ranking.IdsOfPermutation | lib.ts:116 | permuted entries have the same ids, counted with multiplicity |
| Ranking.JoinAvoids | lib.ts:125 | a character in neither the parts nor the separator is not in their join |
| Ranking.FeatureNamesEqual | lib.ts:125 | equal name lists mean equal feature lists |
| Ranking.JoinedFeaturesInjective | lib.ts:125 | two non-empty feature lists with the same "+"-join are equal |
| Ranking.NoDashPrefix | lib.ts:125 | a dash-free text followed by a suffix starting with '-' splits the same way only if both parts agree |
| Ranking.ReportPath | lib.ts:124-127 | `playlist-<name>/` followed by the feature names joined by "+", then "-" and the combinator when one is given, then `.json` |
| Ranking.ReportPathInjective | lib.ts:124-127 | different requests (feature list, combinator or none) on one playlist write to different report paths |
| SpotifyClient.ResolveUserId | spotify.ts:47-50 | the given id unless it is missing or empty, else the profile's id; fails exactly when the chosen id is empty |
| SpotifyClient.BuildClient | spotify.ts:45-52 | `build` yields a client for the resolved id and makes the profile call only when no non-empty id was given |
| SpotifyClient.Spotify.constructor | spotify.ts:41-43 | a new client has made no call |
| SpotifyClient.Spotify.GetAllPlaylists | spotify.ts:54-69 | cache hit: the stored playlists and no call. Miss: one listing call, whose result is stored under `<userId>.playlists.json` |
| SpotifyClient.Spotify.GetAllPlaylistTracks | spotify.ts:71-135 | cache hit: the stored Tracklist and no call. Miss: requests for pages 0..n-1 at limit 50 and offset 50·k, where n is the first page without `next`; the merged Tracklist is stored under `playlist-<name>/tracks.json` |
| SpotifyClient.PageTracks | spotify.ts:98-106 | one page's `items.reduce`: each item's track under its id, later items overwriting earlier ones |
| SpotifyClient.Merged | spotify.ts:96-130 | the Tracklist after `Object.assign` of pages 0..n-1 in order, later pages overwriting earlier ones |
| SpotifyClient.FetchedPagesUnique | spotify.ts:109 | the number of pages fetched is fixed by the service |
| SpotifyClient.PageTracksKeys | spotify.ts:98-106 | a page's Tracklist holds exactly the ids of its items |
| SpotifyClient.PageTracksLastWins | spotify.ts:98-106 | within a page, an id maps to its last item, as id, name, artist names and uri |
| SpotifyClient.PageKeyedById | spotify.ts:99-104 | a page's Tracklist stores each track under its own id |
| SpotifyClient.MergedKeyedById | spotify.ts:96-130 | the merged Tracklist stores each track under its own id |
| SpotifyClient.MergedKeys | spotify.ts:96-130 | the merged Tracklist's keys are exactly the ids fetched, one entry per distinct id |
| SpotifyClient.FetchedIdsOccur | spotify.ts:98-129 | an id is fetched exactly when an item on one of the fetched pages carries it |
| SpotifyClient.InsertStep | spotify.ts:194-201 | one pass of the loop: the batch at i, its pause, then the batches from i+75 |
| SpotifyClient.MergedLastWins | spotify.ts:119-130 | an id's entry comes from its last occurrence: later pages overwrite earlier ones |
| SpotifyClient.JoinWithTracks | spotify.ts:159-167 | each record extended with its track's name and artists, in order; fails exactly when a returned id is not in the Tracklist |
| SpotifyClient.TrackIds | spotify.ts:154 | `Object.keys`: every key of the Tracklist exactly once |
| SpotifyClient.Spotify.GetTracklistFeatures | spotify.ts:137-172 | cache hit: the stored records and no call. Miss: the batch loop over the keys, stored under `playlist-<name>/features.json` on success |
| SpotifyClient.Spotify.LookUpBatches | spotify.ts:152-168 | the loop's result and calls are those of `FeatureRun` over the chunks of 10 ids |
| SpotifyClient.FeatureRun | spotify.ts:152-168 | the batch loop: per batch one lookup, its records joined with the Tracklist and appended; it stops with the error at the first batch holding an unknown id |
| SpotifyClient.FeatureRunFrom | spotify.ts:155-167 | one pass: look up ids[i..i+10], then continue at i+10 |
| SpotifyClient.BatchStep | spotify.ts:155-167 | one pass of the loop on its running output and log |
| SpotifyClient.BatchStart | spotify.ts:152-155 | the loop starts with nothing collected |
| SpotifyClient.BatchEnd | spotify.ts:155-168 | when the index passes the end, the collected records are the whole output |
| SpotifyClient.AfterNothing | spotify.ts:152 | an empty prefix of records and calls changes nothing |
| SpotifyClient.AfterAfter | spotify.ts:159 | collected records and calls accumulate by concatenation |
| SpotifyClient.AllKnownAppend | spotify.ts:163 | every id is known in a concatenation exactly when it is in both parts |
| SpotifyClient.FeatureRunSucceeds | spotify.ts:155-167 | the loop succeeds exactly when every returned record's id is a key of the Tracklist |
| SpotifyClient.FeatureRunRequests | spotify.ts:155-157 | a successful loop issues one lookup per chunk, in chunk order |
| SpotifyClient.FeatureRunOutput | spotify.ts:159-167 | a successful loop outputs every returned record in order, each joined with its track |
| SpotifyClient.FeatureBatches | spotify.ts:153-157 | the key list splits into ceil(n/10) batches of 1 to 10 ids that concatenate to the list |
| SpotifyClient.TwentyFiveIds | spotify.ts:155-156 | 25 ids give batches of 10, 10 and 5 |
| SpotifyClient.NewPlaylist | spotify.ts:177-182 | the creation request: the given name, public, not collaborative, described as "Generated Automatically" |
| SpotifyClient.Spotify.CreatePlaylist | spotify.ts:174-186 | one creation call for the user's new public, non-collaborative playlist, returning what the service creates |
| SpotifyClient.Spotify.AddTracksToPlaylist | spotify.ts:188-203 | the log grows by one add-items call per chunk of 75 URIs, each followed by an 800 ms pause |
| SpotifyClient.InsertEvents | spotify.ts:193-202 | the calls of `addTracksToPlaylist`: per batch of URIs an add-items call and then an 800 ms pause |
| SpotifyClient.InsertEventsShape | spotify.ts:193-202 | ceil(n/75) add-items calls in order, each of 1 to 75 URIs, each followed by a pause; together they carry exactly the URI list |
| SpotifyClient.InsertEventsAt | spotify.ts:194-201 | call k is at position 2k and its pause at 2k+1 |
| SpotifyClient.FetchTracksTwice | spotify.ts:76-81 | a second fetch of a playlist's tracks returns the same Tracklist and makes no call: the only requests are the first fetch's pages, none if the tracks were cached |
| Pipeline.FirstNamed | lib.ts:50 | the first playlist with the name; none exactly when no playlist has it |
| Pipeline.TracklistFeatures.constructor | lib.ts:35-42 | a new object has no playlist, an empty Tracklist and no feature records |
| Pipeline.TracklistFeatures.Build | lib.ts:44-64 | the listing file is the cached one, or the service's `usersPlaylists` on a miss, and no other listing file changes; with no playlist of that name it fails with "not found", logs only the listing call and leaves the track and feature files alone; otherwise `Loaded` holds for the first such playlist from the files and log as they were before the call (listing call included), and a success is a fresh object holding that playlist; report files are untouched |
| Pipeline.TracklistFeatures.Load | lib.ts:57-63 | `Loaded` from the files and log as they were before the call: only that playlist's track and feature entries change, the Tracklist is the cached one or `Merged` over exactly the pages the service reports, the records are the cached ones or the batch loop's output (written only on success), the log gains exactly the page requests and batch events of the misses, and the result is that Tracklist with its records or the loop's error; listing and report files are untouched |
| Pipeline.TracklistFeatures.Fetch | lib.ts:58-62 | the two client calls satisfy `Loaded`, with the outcome the Tracklist and records they return or the lookup error |
| Pipeline.TracklistFeatures.GetTrackUri | lib.ts:66-68 | the URI of a listed track; an unlisted id is an error |
| Pipeline.TracklistFeatures.GetUrisForTracks | lib.ts:70-72 | element i is the URI of id i; fails at the first unlisted id exactly when some id is unlisted |
| Pipeline.TracklistFeatures.SortBySingleFeature | lib.ts:74-85 | a permutation of one entry per record (id, name, artists, the feature's value copied unchanged), ordered from the largest value down |
| Pipeline.TracklistFeatures.SortByFeatureCombo | lib.ts:87-105 | a permutation of one entry per record (score by the combinator, every selected value copied unchanged), ordered from the highest score down |
| Pipeline.TracklistFeatures.Ranked | lib.ts:111-114 | the combination sort exactly when more than one feature is given, otherwise the sort on `feats[0]`; descending, with each record's id once |
| Pipeline.TracklistFeatures.WriteOut | lib.ts:119-130 | the ranking is stored at `playlist-<name>/<feats joined by "+">[-<combinator>].json` |
| Pipeline.TracklistFeatures.SortByFeature | lib.ts:107-117 | writes the report and returns the ids of the ranking in order, which is a permutation of the records' ids |
| Config.Entry | config.ts:15-16 | a line fails exactly when it has no '=' |
| Config.EntryCutsAtSecondEquals | config.ts:15-16 | the key is the trimmed text before the first '='; the value is the trimmed text up to the second '=', and the rest is dropped |
| Config.Fold | config.ts:14-17 | the assignments `creds[key] = value` line by line, stopping at the first line without '='; `__proto__` is never stored |
| Config.ParseEnv | config.ts:12-19 | `loadCredentials` on the file text: trim, split into lines, fold |
| Config.LoadCredentials | config.ts:12-19 | the loop over the lines computes `ParseEnv` of the file text |
| Config.FoldErrorPersists | config.ts:14-17 | once a line has thrown, the result is that error |
| Config.FoldSucceeds | config.ts:14-17 | the loop succeeds exactly when every line parses |
| Config.FoldFailsAtFirst | config.ts:14-17 | a failure is the error of the first line that fails |
| Config.FoldKeys | config.ts:16 | the keys are exactly those of the parsed lines, except `__proto__`, which the object's prototype setter swallows |
| Config.FoldLastWins | config.ts:16 | a key other than `__proto__` holds the value of the last line that sets it |
| Config.LoadSucceeds | config.ts:14-16 | loading succeeds exactly when every line holds '=' |
| Config.LoadFailsAtFirstBadLine | config.ts:14-16 | a failure names the first line without '=' |
| Config.LoadHasLineKey | config.ts:12-16 | every line of a successful load sets its trimmed key, unless that key is `__proto__` |
| Config.LoadKeyFromLine | config.ts:12-16 | every key of the result is the trimmed key of some line and never `__proto__`; nothing else is added |
| Config.LoadLastWins | config.ts:16 | when several lines share a trimmed key other than `__proto__`, the last one's value wins |
| Config.BlankFileFails | config.ts:13-16 | an all-white-space file is a single empty line, which fails |
| Config.SurroundingSpaceIgnored | config.ts:13 | blank lines and white space around the whole file change nothing |
| Cache.TokenCache.constructor | cache.ts:4 | a fresh cache is empty and holds no token |
| Cache.TokenCache.GetToken | cache.ts:10-12 | the token under "token" if present; in a valid cache, nothing exactly when the map is empty |
| Cache.TokenCache.SetToken | cache.ts:6-8 | afterwards the map is exactly {"token": t}, so `getToken` returns t and any earlier token is replaced |
| Cache.TokenCache.DelToken | cache.ts:14-16 | afterwards the map is empty and `getToken` returns nothing; on an empty cache it is a no-op |
| Cache.SetGetDelete | cache.ts:6-16 | set, then get, sees the token; delete, then get, sees nothing |
| Auth.LocalAuthStrategy.constructor | auth.ts:11-13 | the strategy reads the given cache |
| Auth.LocalAuthStrategy.SetConfiguration | auth.ts:15 | the configuration is ignored and the cache is unchanged |
| Auth.LocalAuthStrategy.GetOrCreateAccessToken | auth.ts:17-23 | the cached token when present, else the "Failed to retrieve access token" error; the cache is not changed |
| Auth.LocalAuthStrategy.GetAccessToken | auth.ts:25-27 | the cached token or null, never an error; the cache is not changed |
| Auth.LocalAuthStrategy.RemoveAccessToken | auth.ts:29-31 | afterwards no token is cached |
| Auth.SignOut | auth.ts:17-31 | after `removeAccessToken`, `getAccessToken` gives null and `getOrCreateAccessToken` fails |

## Left out

- The HTTP server, its routes, the OAuth redirect and the token callback are not part of this model. Neither is the un-awaited insertion call the server makes.
- File I/O and JSON are replaced by typed maps on `Disk`. The text format, pretty-printing and failing reads and writes are not modelled. The `.env` file's contents are a parameter, and its never-true "file missing" check is omitted.
- The service library is the value `remote` of total functions. Transport errors, rate limits, authentication failures and the fields-filter argument are not modelled.
- `console.log` output is not modelled. `sleepSync(800)` is only logged as a `Pause(800)` event, without timing.
- Ranking.AverageFeatures, Ranking.MultiplyFeatures: real arithmetic stands in for IEEE doubles, so floating-point error before the final rounding is not modelled. An empty feature list for the average (NaN in the source) is a precondition.
- Ranking.SortDesc: the comparators never answer "equal", so the source leaves the order of entries with equal keys unspecified. The model proves permutation and descending order only, and claims no stability.
- SpotifyClient.TrackIds: `Object.keys` enumerates in insertion order. The model allows any order that lists each key once.
- SpotifyClient.Spotify.GetAllPlaylistTracks: termination needs the service to end the paging at some page (`PagingEnds`). `Build` asks this for every playlist.
- SpotifyClient.Spotify.GetTracklistFeatures: a record whose id is not in the Tracklist throws a TypeError in the source. The model returns `UnknownTrack` with that id and does not cache anything.
- Pipeline.TracklistFeatures.GetUrisForTracks: the source's TypeError on an unlisted id is the `MissingTrack` error.
- Pipeline.TracklistFeatures.Ranked, Pipeline.TracklistFeatures.SortByFeature: an empty feature list is a precondition. With more than one feature, a combinator is also a precondition (the non-null assertion `scoringFunc!`). `writeOut` requiring a playlist mirrors `this.playlist!`.
- Catalog.AudioFeatures keeps the id and the ten comparable values only. The source's `...f` copies every field of the service's record (key, mode, uri and the rest) into each Song and into `features.json`; those extra fields are not modelled.
- Strings are sequences of Unicode scalar values. UTF-16 code units, and so surrogate pairs, are not modelled.
