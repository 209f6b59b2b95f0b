/**
 * `get_song_recommendation` of app.py: filter the catalog by the mood's
 * profile, then draw rows one at a time without replacement, resolve each to
 * a YouTube id, and stop at the quota, at the attempt budget, or when the
 * pool runs dry. `pandas.sample(1)` is an arbitrary choice from the pool.
 */
module Recommender {
  import opened Wrappers
  import opened MoodFilter
  import opened YouTubeOracle
  import EmotionLabels

  /** The source's quota of recommendations per request. */
  const Quota: nat := 10

  /** The source's attempt budget per request. */
  const MaxAttempts: nat := 30

  /** One entry of `recommended_songs`: `{name, artist, youtube_id}`. */
  datatype Recommendation = Recommendation(name: string, artist: string, youtubeId: string)

  /** `if youtube_id:` in Python: a missing id and the empty string are both rejected. */
  predicate Accepted(youtubeId: Option<string>) {
    youtubeId.Some? && youtubeId.value != ""
  }

  /** Every drawn index label is a row of `pool`. */
  predicate DrawnFrom(pool: map<int, Row>, drawn: seq<int>) {
    forall i :: 0 <= i < |drawn| ==> drawn[i] in pool
  }

  /** No index label is drawn twice. */
  predicate Distinct(drawn: seq<int>) {
    forall i, j :: 0 <= i < j < |drawn| ==> drawn[i] != drawn[j]
  }

  /**
   * The recommendations that the draws `drawn` produce, in discovery order:
   * one per drawn row whose resolved id is accepted.
   */
  function Discoveries(pool: map<int, Row>, drawn: seq<int>, search: SongSearch, lookup: VideoLookup)
    : (found: seq<Recommendation>)
    requires DrawnFrom(pool, drawn)
    ensures |found| <= |drawn|
  {
    if drawn == [] then []
    else
      var before := Discoveries(pool, drawn[..|drawn| - 1], search, lookup);
      var row := pool[drawn[|drawn| - 1]];
      var youtubeId := Resolve(search, lookup, row.name, row.artist);
      if Accepted(youtubeId) then before + [Recommendation(row.name, row.artist, youtubeId.value)]
      else before
  }

  /**
   * Each recommendation comes from a drawn row: same name and artist, and an
   * id that the resolver returned for that row and that passed the availability check.
   */
  lemma {:induction false} DiscoveriesSound(pool: map<int, Row>, drawn: seq<int>, search: SongSearch,
                                            lookup: VideoLookup, n: int)
    requires DrawnFrom(pool, drawn)
    requires 0 <= n < |Discoveries(pool, drawn, search, lookup)|
    ensures var rec := Discoveries(pool, drawn, search, lookup)[n];
      exists i :: 0 <= i < |drawn| &&
        pool[drawn[i]].name == rec.name && pool[drawn[i]].artist == rec.artist &&
        Resolve(search, lookup, rec.name, rec.artist) == Some(rec.youtubeId) &&
        rec.youtubeId != "" && Available(lookup, rec.youtubeId)
  {
    var last := |drawn| - 1;
    var before := Discoveries(pool, drawn[..last], search, lookup);
    assert DrawnFrom(pool, drawn[..last]);
    var rec := Discoveries(pool, drawn, search, lookup)[n];
    if n < |before| {
      DiscoveriesSound(pool, drawn[..last], search, lookup, n);
      var i :| 0 <= i < last && pool[drawn[..last][i]].name == rec.name && pool[drawn[..last][i]].artist == rec.artist;
      assert drawn[..last][i] == drawn[i];
    } else {
      var row := pool[drawn[last]];
      assert rec.name == row.name && rec.artist == row.artist;
      FirstAvailableIff(search(row.name, row.artist).value, lookup, rec.youtubeId);
    }
  }

  /** When no draw resolves to an accepted id there is nothing to recommend. */
  lemma {:induction false} AllRejectedFindsNothing(pool: map<int, Row>, drawn: seq<int>, search: SongSearch,
                                                   lookup: VideoLookup)
    requires DrawnFrom(pool, drawn)
    requires forall i :: 0 <= i < |drawn| ==>
      !Accepted(Resolve(search, lookup, pool[drawn[i]].name, pool[drawn[i]].artist))
    ensures Discoveries(pool, drawn, search, lookup) == []
  {
    if drawn != [] {
      var last := |drawn| - 1;
      assert DrawnFrom(pool, drawn[..last]);
      forall i | 0 <= i < last
        ensures !Accepted(Resolve(search, lookup, pool[drawn[..last][i]].name, pool[drawn[..last][i]].artist))
      {
        assert drawn[..last][i] == drawn[i];
      }
      AllRejectedFindsNothing(pool, drawn[..last], search, lookup);
    }
  }

  /** Before each draw the quota was still unmet: the loop never draws past the quota. */
  predicate BelowQuotaBefore(pool: map<int, Row>, drawn: seq<int>, search: SongSearch, lookup: VideoLookup, quota: nat)
    requires DrawnFrom(pool, drawn)
  {
    forall k :: 0 <= k < |drawn| ==> |Discoveries(pool, drawn[..k], search, lookup)| < quota
  }

  /** One iteration of the loop, drawing `key`, keeps its bookkeeping facts. */
  lemma DrawOne(pool: map<int, Row>, drawn: seq<int>, key: int, search: SongSearch, lookup: VideoLookup, quota: nat)
    requires DrawnFrom(pool, drawn) && Distinct(drawn) && key in pool && key !in drawn
    requires BelowQuotaBefore(pool, drawn, search, lookup, quota)
    requires |Discoveries(pool, drawn, search, lookup)| < quota
    ensures DrawnFrom(pool, drawn + [key]) && Distinct(drawn + [key])
    ensures BelowQuotaBefore(pool, drawn + [key], search, lookup, quota)
    ensures var row := pool[key];
      var youtubeId := Resolve(search, lookup, row.name, row.artist);
      Discoveries(pool, drawn + [key], search, lookup) ==
        Discoveries(pool, drawn, search, lookup) +
        (if Accepted(youtubeId) then [Recommendation(row.name, row.artist, youtubeId.value)] else [])
  {
    var next := drawn + [key];
    assert next[..|drawn|] == drawn;
    forall k | 0 <= k < |next|
      ensures |Discoveries(pool, next[..k], search, lookup)| < quota
    {
      if k < |drawn| {
        assert next[..k] == drawn[..k];
      }
    }
  }

  /**
   * The sampling loop. `drawn` is the sequence of index labels drawn, one per
   * iteration and one resolver call each; `drawn` has no repeats, its length is
   * the final `attempts`, and the loop stops only on quota, budget, or an empty pool.
   */
  method SampleRecommendations(pool0: map<int, Row>, search: SongSearch, lookup: VideoLookup,
                               quota: nat, maxAttempts: nat)
    returns (result: Option<seq<Recommendation>>, drawn: seq<int>)
    ensures DrawnFrom(pool0, drawn) && Distinct(drawn)
    ensures |drawn| <= maxAttempts && |drawn| <= |pool0|
    ensures var found := Discoveries(pool0, drawn, search, lookup);
      && |found| <= quota
      && result == (if found == [] then None else Some(found))
      && (|found| == quota || |drawn| == maxAttempts || |drawn| == |pool0|)
    ensures BelowQuotaBefore(pool0, drawn, search, lookup, quota)
    ensures pool0 == map[] ==> drawn == [] && result == None
  {
    var recommended: seq<Recommendation> := [];
    var attempts := 0;
    var matching := pool0;
    drawn := [];
    while |recommended| < quota && attempts < maxAttempts && |matching| > 0
      invariant attempts == |drawn| <= maxAttempts
      invariant DrawnFrom(pool0, drawn) && Distinct(drawn)
      invariant forall id :: id in matching <==> id in pool0 && id !in drawn
      invariant forall id :: id in matching ==> matching[id] == pool0[id]
      invariant |matching| + |drawn| == |pool0|
      invariant recommended == Discoveries(pool0, drawn, search, lookup)
      invariant |recommended| <= quota
      invariant BelowQuotaBefore(pool0, drawn, search, lookup, quota)
      decreases |matching|
    {
      // Unused: it only hands the solver a witness for the `:|` below.
      ghost var someKey := SomeKey(matching);
      var key :| key in matching;
      var selected := matching[key];
      var youtubeId := GetYouTubeAudioId(selected.name, selected.artist, search, lookup);
      if Accepted(youtubeId) {
        recommended := recommended + [Recommendation(selected.name, selected.artist, youtubeId.value)];
      }
      DrawOne(pool0, drawn, key, search, lookup, quota);
      assert |matching.Keys - {key}| == |matching.Keys| - 1;
      matching := matching - {key};
      attempts := attempts + 1;
      drawn := drawn + [key];
    }
    result := if |recommended| > 0 then Some(recommended) else None;
  }

  /** A non-empty pool has a row to draw. */
  lemma SomeKey(pool: map<int, Row>) returns (key: int)
    requires |pool| > 0
    ensures key in pool
  {
    if forall k :: k !in pool {
      assert false;
    }
    key :| key in pool;
  }

  /**
   * `get_song_recommendation(emotion)` with the source's quota of 10 and
   * budget of 30: every draw is a catalog row inside the mood's ranges, and
   * the result is the discoveries of those draws, or `None` when there are none.
   */
  method GetSongRecommendation(catalog: Catalog, emotion: string, search: SongSearch, lookup: VideoLookup)
    returns (result: Option<seq<Recommendation>>, drawn: seq<int>)
    ensures DrawnFrom(Pool(catalog, emotion), drawn) && Distinct(drawn)
    ensures forall i :: 0 <= i < |drawn| ==>
      drawn[i] in catalog.rows && MatchesAll(catalog.rows[drawn[i]], Conditions(ProfileFor(emotion), catalog.columns))
    ensures |drawn| <= MaxAttempts && |drawn| <= |Pool(catalog, emotion)|
    ensures var found := Discoveries(Pool(catalog, emotion), drawn, search, lookup);
      && |found| <= Quota
      && result == (if found == [] then None else Some(found))
      && (|found| == Quota || |drawn| == MaxAttempts || |drawn| == |Pool(catalog, emotion)|)
    ensures BelowQuotaBefore(Pool(catalog, emotion), drawn, search, lookup, Quota)
  {
    var pool := Pool(catalog, emotion);
    result, drawn := SampleRecommendations(pool, search, lookup, Quota, MaxAttempts);
  }

  /**
   * The attempt budget binds regardless of pool size: with a budget of 5, a
   * pool of at least 5 rows and every resolution rejected, exactly 5 rows are
   * drawn and nothing is found.
   */
  method BudgetExhausted(pool: map<int, Row>, search: SongSearch, lookup: VideoLookup)
    returns (result: Option<seq<Recommendation>>, drawn: seq<int>)
    requires |pool| >= 5
    requires forall id :: id in pool ==> !Accepted(Resolve(search, lookup, pool[id].name, pool[id].artist))
    ensures result == None && |drawn| == 5
  {
    result, drawn := SampleRecommendations(pool, search, lookup, Quota, 5);
    AllRejectedFindsNothing(pool, drawn, search, lookup);
  }

  /** A text label maps to a mood with its own profile unless it is "love", whose mood "romantic" falls back to "happy". */
  lemma TextMoodProfiled(tag: string)
    ensures EmotionLabels.TextMood(tag) in ProfileTable <==> tag != "love"
    ensures ProfileFor(EmotionLabels.TextMood("love")) == ProfileFor(DefaultMood)
  {
  }

  /** Every mood the face table produces has its own profile. */
  lemma FaceMoodProfiled(tag: string)
    ensures EmotionLabels.FaceMood(tag) in ProfileTable
  {
  }
}
