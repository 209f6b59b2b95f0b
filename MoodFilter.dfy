/**
 * The first half of `get_song_recommendation` in app.py: a static table of
 * mood profiles (inclusive ranges on audio features) and the query that keeps
 * the catalog rows inside every range whose feature is a catalog column.
 */
module MoodFilter {

  /** Inclusive bounds `(min_val, max_val)` on one audio feature. */
  datatype Range = Range(lo: real, hi: real) {
    predicate Contains(v: real) {
      lo <= v && v <= hi
    }
  }

  /** Feature name to range, one per mood. */
  type Profile = map<string, Range>

  /**
   * One catalog row. `features` holds the numeric cells of the row; a column
   * whose cell is missing from `features` stands for a NaN cell, which fails
   * every comparison in the query.
   */
  datatype Row = Row(name: string, artist: string, features: map<string, real>)

  /** The loaded table: its column names and its rows keyed by index label. */
  datatype Catalog = Catalog(columns: set<string>, rows: map<int, Row>)

  /** `emotion_features`. */
  const ProfileTable: map<string, Profile> := map[
    "happy" := map["valence" := Range(0.6, 1.0), "energy" := Range(0.6, 1.0)],
    "sad" := map["valence" := Range(0.0, 0.4), "energy" := Range(0.0, 0.5)],
    "neutral" := map["valence" := Range(0.4, 0.8), "energy" := Range(0.3, 0.6)],
    "angry" := map["valence" := Range(0.0, 0.4), "energy" := Range(0.7, 1.0)],
    "excited" := map["valence" := Range(0.7, 1.0), "energy" := Range(0.8, 1.0)],
    "anxious" := map["valence" := Range(0.0, 0.3), "energy" := Range(0.5, 0.8)]
  ]

  /** The profile used when the mood is not a key of the table. */
  const DefaultMood := "happy"

  /** `emotion_features.get(emotion, emotion_features["happy"])`: never fails. */
  function ProfileFor(mood: string): (p: Profile)
    ensures p.Keys == {"valence", "energy"}
    ensures forall f :: f in p ==> 0.0 <= p[f].lo <= p[f].hi <= 1.0
    ensures mood !in ProfileTable ==> p == map["valence" := Range(0.6, 1.0), "energy" := Range(0.6, 1.0)]
  {
    if mood in ProfileTable then ProfileTable[mood] else ProfileTable[DefaultMood]
  }

  /** The row's cell for `feature` lies in `r` (a NaN cell never does). */
  predicate InRange(row: Row, feature: string, r: Range) {
    feature in row.features && r.Contains(row.features[feature])
  }

  /** The ranges that become query conditions: those whose feature is a column. */
  function Conditions(p: Profile, columns: set<string>): (c: Profile)
    ensures c.Keys <= p.Keys && c.Keys <= columns
    ensures forall f :: f in p && f in columns ==> f in c && c[f] == p[f]
  {
    map f | f in p && f in columns :: p[f]
  }

  /** The conjunction of all query conditions holds for `row`. */
  predicate MatchesAll(row: Row, conditions: Profile) {
    forall f :: f in conditions ==> InRange(row, f, conditions[f])
  }

  /**
   * `spotify_df.query(filter_query) if filter_conditions else spotify_df`:
   * the pool keeps exactly the rows inside every profile range whose feature
   * is a column, unchanged and under their own index labels.
   */
  function Filter(c: Catalog, p: Profile): (pool: map<int, Row>)
    ensures forall id :: id in pool ==> id in c.rows && pool[id] == c.rows[id]
    ensures forall id :: id in pool <==>
      id in c.rows && forall f :: f in p && f in c.columns ==> InRange(c.rows[id], f, p[f])
  {
    var conditions := Conditions(p, c.columns);
    if conditions == map[] then c.rows
    else map id | id in c.rows && MatchesAll(c.rows[id], conditions) :: c.rows[id]
  }

  /** The candidate pool for a mood. */
  function Pool(c: Catalog, mood: string): (pool: map<int, Row>)
    ensures forall id :: id in pool <==> id in c.rows && MatchesAll(c.rows[id], Conditions(ProfileFor(mood), c.columns))
    ensures forall id :: id in pool ==> pool[id] == c.rows[id]
  {
    Filter(c, ProfileFor(mood))
  }

  /** An unknown mood filters exactly as "happy" does. */
  lemma UnknownMoodUsesHappy(c: Catalog, mood: string)
    requires mood !in ProfileTable
    ensures Pool(c, mood) == Pool(c, DefaultMood)
  {
  }

  /** When neither "valence" nor "energy" is a column, the pool is the whole catalog. */
  lemma NoFeatureColumnsKeepsAll(c: Catalog, mood: string)
    requires "valence" !in c.columns && "energy" !in c.columns
    ensures Pool(c, mood) == c.rows
  {
    var p := ProfileFor(mood);
    assert Conditions(p, c.columns) == map[];
  }

  /** A profile feature that is not a column imposes no constraint: changing that cell changes nothing. */
  lemma NonColumnFeatureIgnored(c: Catalog, p: Profile, id: int, f: string, v: real)
    requires id in c.rows && f !in c.columns
    ensures var row := c.rows[id];
            var c' := c.(rows := c.rows[id := row.(features := row.features[f := v])]);
            (id in Filter(c, p)) == (id in Filter(c', p))
  {
    var row := c.rows[id];
    var row' := row.(features := row.features[f := v]);
    forall g | g in p && g in c.columns
      ensures InRange(row, g, p[g]) == InRange(row', g, p[g])
    {
      assert g != f;
    }
  }

  /** Filtering the pool again with the same profile yields the same pool. */
  lemma FilterIdempotent(c: Catalog, p: Profile)
    ensures Filter(Catalog(c.columns, Filter(c, p)), p) == Filter(c, p)
  {
    var once := Filter(c, p);
    var twice := Filter(Catalog(c.columns, once), p);
    forall id | id in once
      ensures id in twice
    {
      assert once[id] == c.rows[id];
    }
    assert twice.Keys == once.Keys;
  }
}
