/**
 * The pure part of the ranking engine: the two scoring combinators with their
 * four-decimal rounding, the ranked-entry records, the descending sort, and
 * the report-file path.
 */
module Ranking {
  import opened Wrappers
  import opened Catalog
  import Text

  // ---------------------------------------------------------------- rounding

  /** `Math.round`: the nearest integer, a half rounded toward +infinity (so -2.5 becomes -2). */
  function JsRound(x: real): (n: int)
    ensures x - 0.5 < n as real <= x + 0.5
  {
    (x + 0.5).Floor
  }

  /** A multiple of 1/10000: a value with at most four decimal places. */
  predicate OnGrid(r: real) {
    (r * 10000.0).Floor as real == r * 10000.0
  }

  /** `Math.round(x * 10000) / 10000`. */
  function Round4(x: real): (r: real)
    ensures OnGrid(r)
    ensures x - 0.00005 < r <= x + 0.00005
  {
    var n := JsRound(x * 10000.0);
    assert (n as real / 10000.0) * 10000.0 == n as real;
    n as real / 10000.0
  }

  /** The grid value within half a unit of x (the upper one at a tie) is unique: it is Round4(x). */
  lemma Round4Unique(x: real, r: real)
    requires OnGrid(r)
    requires x - 0.00005 < r <= x + 0.00005
    ensures r == Round4(x)
  {
    var a, b := r * 10000.0, Round4(x) * 10000.0;
    assert a.Floor as real == a && b.Floor as real == b;
    assert x * 10000.0 - 0.5 < a <= x * 10000.0 + 0.5;
    assert x * 10000.0 - 0.5 < b <= x * 10000.0 + 0.5;
    assert a.Floor == b.Floor;
  }

  /** Rounding a value that already has four decimals changes nothing, so rounding twice is rounding once. */
  lemma Round4Idempotent(x: real)
    ensures Round4(Round4(x)) == Round4(x)
  {
    var r := Round4(x);
    Round4Unique(r, r);
  }

  lemma JsRoundHalves()
    ensures JsRound(2.5) == 3 && JsRound(-2.5) == -2 && JsRound(-2.6) == -3
  {
  }

  // ---------------------------------------------------------------- combinators

  /** The fold `feats.reduce((acc, f) => acc + song[f], acc)`. */
  function SumFold(song: Song, feats: seq<Feature>, acc: real): real
    decreases |feats|
  {
    if feats == [] then acc else SumFold(song, feats[1..], acc + Value(song, feats[0]))
  }

  /** The fold `feats.reduce((acc, f) => acc * song[f], acc)`. */
  function ProductFold(song: Song, feats: seq<Feature>, acc: real): real
    decreases |feats|
  {
    if feats == [] then acc else ProductFold(song, feats[1..], acc * Value(song, feats[0]))
  }

  /** The sum of the selected feature values. */
  function Total(song: Song, feats: seq<Feature>): real
    decreases |feats|
  {
    if feats == [] then 0.0 else Value(song, feats[0]) + Total(song, feats[1..])
  }

  /** The product of the selected feature values. */
  function Product(song: Song, feats: seq<Feature>): real
    decreases |feats|
  {
    if feats == [] then 1.0 else Value(song, feats[0]) * Product(song, feats[1..])
  }

  lemma {:induction false} SumFoldIsTotal(song: Song, feats: seq<Feature>, acc: real)
    ensures SumFold(song, feats, acc) == acc + Total(song, feats)
    decreases |feats|
  {
    if feats != [] {
      SumFoldIsTotal(song, feats[1..], acc + Value(song, feats[0]));
    }
  }

  lemma ProductFoldStep(song: Song, feats: seq<Feature>, acc: real)
    requires feats != []
    ensures ProductFold(song, feats, acc) == ProductFold(song, feats[1..], acc * Value(song, feats[0]))
  {
  }

  lemma MulAssoc(a: real, b: real, c: real)
    ensures (a * b) * c == a * (b * c)
  {
  }

  lemma {:induction false} ProductFoldIsProduct(song: Song, feats: seq<Feature>, acc: real)
    ensures ProductFold(song, feats, acc) == acc * Product(song, feats)
    decreases |feats|
  {
    if feats != [] {
      ProductFoldStep(song, feats, acc);
      ProductFoldIsProduct(song, feats[1..], acc * Value(song, feats[0]));
      MulAssoc(acc, Value(song, feats[0]), Product(song, feats[1..]));
    }
  }

  /** `averageFeatures`: the mean of the selected values, rounded once to four decimals. */
  function AverageFeatures(song: Song, feats: seq<Feature>): (r: real)
    requires |feats| > 0
    ensures OnGrid(r)
    ensures var mean := Total(song, feats) / |feats| as real;
      mean - 0.00005 < r <= mean + 0.00005
  {
    SumFoldIsTotal(song, feats, 0.0);
    Round4(SumFold(song, feats, 0.0) / |feats| as real)
  }

  /** `multiplyFeatures`: the product of the selected values (1 for none), rounded once to four decimals. */
  function MultiplyFeatures(song: Song, feats: seq<Feature>): (r: real)
    ensures OnGrid(r)
    ensures Product(song, feats) - 0.00005 < r <= Product(song, feats) + 0.00005
  {
    ProductFoldIsProduct(song, feats, 1.0);
    Round4(ProductFold(song, feats, 1.0))
  }

  /** The `ScoringFunctions` table, as a closed set of combinators. */
  datatype ScoringFunction = Average | Multiply

  function ScoringName(sf: ScoringFunction): string {
    match sf
    case Average => "average"
    case Multiply => "multiply"
  }

  function Score(sf: ScoringFunction, song: Song, feats: seq<Feature>): real
    requires sf == Average ==> |feats| > 0
  {
    match sf
    case Average => AverageFeatures(song, feats)
    case Multiply => MultiplyFeatures(song, feats)
  }

  /** The worked example: values 2 and 4 average to 3 and multiply to 8. */
  lemma CombinatorExample(song: Song)
    requires song.features.energy == 2.0 && song.features.valence == 4.0
    ensures AverageFeatures(song, [Energy, Valence]) == 3.0
    ensures MultiplyFeatures(song, [Energy, Valence]) == 8.0
  {
    assert Total(song, [Energy, Valence]) == 6.0;
    assert Product(song, [Energy, Valence]) == 8.0;
    Round4Unique(3.0, AverageFeatures(song, [Energy, Valence]));
    Round4Unique(3.0, 3.0);
    Round4Unique(8.0, MultiplyFeatures(song, [Energy, Valence]));
    Round4Unique(8.0, 8.0);
  }

  // ---------------------------------------------------------------- ranked entries

  /**
   * `FinalTrack`: a single-feature entry carries the one chosen value; a
   * combination entry carries its score and every selected value.
   */
  datatype RankedEntry =
    | SingleEntry(id: TrackId, name: string, artists: seq<string>, feature: Feature, value: real)
    | ComboEntry(id: TrackId, name: string, artists: seq<string>, score: real, values: map<Feature, real>)
  {
    /** What the ranking sorts on. */
    function Key(): real {
      if SingleEntry? then value else score
    }
  }

  function SingleEntryOf(s: Song, f: Feature): RankedEntry {
    SingleEntry(s.Id(), s.name, s.artists, f, Value(s, f))
  }

  function ComboEntryOf(s: Song, feats: seq<Feature>, sf: ScoringFunction): RankedEntry
    requires sf == Average ==> |feats| > 0
  {
    ComboEntry(s.Id(), s.name, s.artists, Score(sf, s, feats), map f | f in feats :: Value(s, f))
  }

  function SingleEntries(songs: seq<Song>, f: Feature): seq<RankedEntry> {
    seq(|songs|, i requires 0 <= i < |songs| => SingleEntryOf(songs[i], f))
  }

  function ComboEntries(songs: seq<Song>, feats: seq<Feature>, sf: ScoringFunction): seq<RankedEntry>
    requires sf == Average ==> |feats| > 0
  {
    seq(|songs|, i requires 0 <= i < |songs| => ComboEntryOf(songs[i], feats, sf))
  }

  function EntryIds(es: seq<RankedEntry>): seq<TrackId> {
    seq(|es|, i requires 0 <= i < |es| => es[i].id)
  }

  function SongIds(songs: seq<Song>): seq<TrackId> {
    seq(|songs|, i requires 0 <= i < |songs| => songs[i].Id())
  }

  // ---------------------------------------------------------------- sorting

  /** Ordered by key from the largest down. */
  predicate NonIncreasing(es: seq<RankedEntry>) {
    forall i, j :: 0 <= i < j < |es| ==> es[i].Key() >= es[j].Key()
  }

  function Insert(e: RankedEntry, es: seq<RankedEntry>): seq<RankedEntry>
    decreases |es|
  {
    if es == [] then [e]
    else if es[0].Key() <= e.Key() then [e] + es
    else [es[0]] + Insert(e, es[1..])
  }

  /**
   * The descending sort behind `.sort((a, b) => a.key < b.key ? 1 : -1)`.  That
   * comparator never answers "equal", so the order it gives equal keys is not
   * specified; nothing is claimed about it here.
   */
  function SortDesc(es: seq<RankedEntry>): seq<RankedEntry>
    decreases |es|
  {
    if es == [] then [] else Insert(es[0], SortDesc(es[1..]))
  }

  lemma {:induction false} InsertPermutes(e: RankedEntry, es: seq<RankedEntry>)
    ensures multiset(Insert(e, es)) == multiset(es) + multiset{e}
    decreases |es|
  {
    if es != [] && es[0].Key() > e.Key() {
      InsertPermutes(e, es[1..]);
      assert es == [es[0]] + es[1..];
    }
  }

  lemma {:induction false} InsertSorted(e: RankedEntry, es: seq<RankedEntry>)
    requires NonIncreasing(es)
    ensures NonIncreasing(Insert(e, es))
    decreases |es|
  {
    if es != [] && es[0].Key() > e.Key() {
      var rest := Insert(e, es[1..]);
      InsertSorted(e, es[1..]);
      InsertPermutes(e, es[1..]);
      forall j | 0 <= j < |rest|
        ensures rest[j].Key() <= es[0].Key()
      {
        assert rest[j] in multiset(rest);
        if rest[j] != e {
          assert rest[j] in multiset(es[1..]);
          var k :| 0 <= k < |es[1..]| && es[1..][k] == rest[j];
          assert es[k + 1] == rest[j];
        }
      }
    }
  }

  /** Sorting neither loses nor duplicates an entry. */
  lemma {:induction false} SortDescPermutes(es: seq<RankedEntry>)
    ensures multiset(SortDesc(es)) == multiset(es)
    decreases |es|
  {
    if es != [] {
      SortDescPermutes(es[1..]);
      InsertPermutes(es[0], SortDesc(es[1..]));
      assert es == [es[0]] + es[1..];
    }
  }

  /** Sorting leaves the entries ordered from the largest key down. */
  lemma {:induction false} SortDescSorted(es: seq<RankedEntry>)
    ensures NonIncreasing(SortDesc(es))
    decreases |es|
  {
    if es != [] {
      SortDescSorted(es[1..]);
      InsertSorted(es[0], SortDesc(es[1..]));
    }
  }

  lemma EntryIdsAppend(x: seq<RankedEntry>, y: seq<RankedEntry>)
    ensures EntryIds(x + y) == EntryIds(x) + EntryIds(y)
  {
  }

  /** Taking the i-th entry out removes it from the entries and its id from the ids. */
  lemma RemoveAt(b: seq<RankedEntry>, i: nat)
    requires i < |b|
    ensures multiset(b) == multiset(b[..i] + b[i + 1..]) + multiset{b[i]}
    ensures multiset(EntryIds(b)) == multiset(EntryIds(b[..i] + b[i + 1..])) + multiset{b[i].id}
  {
    var b1, b2 := b[..i], b[i + 1..];
    assert b == b1 + [b[i]] + b2;
    EntryIdsAppend(b1 + [b[i]], b2);
    EntryIdsAppend(b1, [b[i]]);
    EntryIdsAppend(b1, b2);
    assert EntryIds([b[i]]) == [b[i].id];
  }

  /** Reordering the entries reorders their ids the same way. */
  lemma {:induction false} IdsOfPermutation(a: seq<RankedEntry>, b: seq<RankedEntry>)
    requires multiset(a) == multiset(b)
    ensures multiset(EntryIds(a)) == multiset(EntryIds(b))
    decreases |a|
  {
    if a != [] {
      var x, rest := a[0], a[1..];
      assert a == [x] + rest;
      assert x in multiset(b);
      var i :| 0 <= i < |b| && b[i] == x;
      RemoveAt(b, i);
      var c := b[..i] + b[i + 1..];
      assert multiset(a) == multiset{x} + multiset(rest);
      assert multiset(rest) == multiset(a) - multiset{x};
      assert multiset(c) == multiset(b) - multiset{x};
      IdsOfPermutation(rest, c);
      EntryIdsAppend([x], rest);
      assert EntryIds([x]) == [x.id];
    }
  }

  // ---------------------------------------------------------------- report file

  function FeatureNameList(feats: seq<Feature>): (names: seq<string>)
    ensures |names| == |feats|
    ensures forall i :: 0 <= i < |feats| ==> names[i] == FeatureName(feats[i])
  {
    seq(|feats|, i requires 0 <= i < |feats| => FeatureName(feats[i]))
  }

  /** The file `writeOut` writes: the features joined by "+", then "-" and the combinator when one is given. */
  function ReportFileName(feats: seq<Feature>, sf: Option<ScoringFunction>): string {
    Text.Join(FeatureNameList(feats), "+")
      + (if sf.Some? then "-" + ScoringName(sf.value) else "")
      + ".json"
  }

  /** `playlist-<name>/<file>`, the path of the report for a playlist. */
  function ReportPath(playlistName: string, feats: seq<Feature>, sf: Option<ScoringFunction>): string {
    "playlist-" + playlistName + "/" + ReportFileName(feats, sf)
  }

  lemma {:induction false} JoinAvoids(parts: seq<string>, sep: string, c: char)
    requires c !in sep
    requires forall i :: 0 <= i < |parts| ==> c !in parts[i]
    ensures c !in Text.Join(parts, sep)
    decreases |parts|
  {
    if |parts| > 1 {
      JoinAvoids(parts[1..], sep, c);
    }
  }

  lemma FeatureNamesEqual(f1: seq<Feature>, f2: seq<Feature>)
    requires FeatureNameList(f1) == FeatureNameList(f2)
    ensures f1 == f2
  {
    forall i | 0 <= i < |f1|
      ensures f1[i] == f2[i]
    {
      FeatureNameInjective(f1[i], f2[i]);
    }
  }

  /** Non-empty feature lists joined by "+" determine the list. */
  lemma JoinedFeaturesInjective(f1: seq<Feature>, f2: seq<Feature>)
    requires |f1| > 0 && |f2| > 0
    requires Text.Join(FeatureNameList(f1), "+") == Text.Join(FeatureNameList(f2), "+")
    ensures f1 == f2
  {
    var n1, n2 := FeatureNameList(f1), FeatureNameList(f2);
    Text.SplitJoin(n1, '+');
    Text.SplitJoin(n2, '+');
    assert "+" == ['+'];
    FeatureNamesEqual(f1, f2);
  }

  /**
   * Distinct ranking requests on the same playlist write distinct report
   * files: the path determines the feature list and the combinator.
   */
  lemma ReportPathInjective(name: string, f1: seq<Feature>, s1: Option<ScoringFunction>,
                            f2: seq<Feature>, s2: Option<ScoringFunction>)
    requires |f1| > 0 && |f2| > 0
    requires ReportPath(name, f1, s1) == ReportPath(name, f2, s2)
    ensures f1 == f2 && s1 == s2
  {
    var prefix := "playlist-" + name + "/";
    var j1, j2 := Text.Join(FeatureNameList(f1), "+"), Text.Join(FeatureNameList(f2), "+");
    var t1 := if s1.Some? then "-" + ScoringName(s1.value) else "";
    var t2 := if s2.Some? then "-" + ScoringName(s2.value) else "";
    var p1, p2 := ReportPath(name, f1, s1), ReportPath(name, f2, s2);
    assert p1 == prefix + (j1 + t1 + ".json");
    assert p2 == prefix + (j2 + t2 + ".json");
    assert j1 + t1 + ".json" == p1[|prefix|..] == p2[|prefix|..] == j2 + t2 + ".json";
    var b1, b2 := j1 + t1, j2 + t2;
    assert b1 == (j1 + t1 + ".json")[..|b1|];
    assert b2 == (j2 + t2 + ".json")[..|b2|];
    assert |b1| == |b2|;
    assert b1 == b2;
    JoinAvoids(FeatureNameList(f1), "+", '-');
    JoinAvoids(FeatureNameList(f2), "+", '-');
    NoDashPrefix(j1, t1, j2, t2);
    JoinedFeaturesInjective(f1, f2);
    if s1.Some? && s2.Some? {
      assert ScoringName(s1.value) == t1[1..] == t2[1..] == ScoringName(s2.value);
    }
  }

  /** Cutting `j + t` at its first '-' when `j` has none: both parts agree. */
  lemma NoDashPrefix(j1: string, t1: string, j2: string, t2: string)
    requires '-' !in j1 && '-' !in j2
    requires t1 == [] || t1[0] == '-'
    requires t2 == [] || t2[0] == '-'
    requires j1 + t1 == j2 + t2
    ensures j1 == j2 && t1 == t2
  {
    Text.SplitHead(j1, '-', t1);
    Text.SplitHead(j2, '-', t2);
    assert t1 == (j1 + t1)[|j1|..];
    assert t2 == (j2 + t2)[|j2|..];
  }
}
