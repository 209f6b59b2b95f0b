# Mood-based song recommender: a Dafny model

This project models the core of a mood-based music recommender. The server
(app.py) takes a mood label and recommends up to 10 songs. It filters a song
catalog by audio-feature ranges for that mood. It then draws candidate rows
one at a time and resolves each to a playable YouTube video id, until the
quota is met, 30 attempts are used up, or the pool is empty. The browser
client (script.js) keeps the returned songs in a playback queue with a cursor.

Modules, one per concern of the source:

- `Wrappers`: the `Option` type. It stands for Python's `None`, for absent JSON fields and for failed external calls.
- `EmotionLabels`: the text-label table `EMOTION_MAPPING` and the face-label table. Both are total, with default "happy".
- `MoodFilter`: the mood-profile table and the column-aware range query over the catalog.
  - A catalog is a set of column names plus rows keyed by their pandas index label.
  - Feature values are `real`. A row lacking a feature stands for a NaN cell, which fails every comparison.
- `YouTubeOracle`: `check_video_availability` as a predicate, and `get_youtube_audio_id` as a method with a loop.
  - The two YouTube calls are function parameters.
  - Each call returns `None` when it raises.
- `Recommender`: the sampling loop of `get_song_recommendation` as a method.
  - `pandas.sample(1)` is an arbitrary choice (`:|`) from the pool.
  - Besides the recommendations, the method returns `drawn`: the index labels drawn, in order, one per iteration. Each iteration makes exactly one resolver call, so `|drawn|` is the final `attempts`.
- `PlayerQueue`: a `Player` class holding the globals `songQueue` and `currentSongIndex`, plus the clickable list entries.
- `PlayerFormat`: `formatTime` and the threshold rule of `updateVolumeIcon`.

Behaviour of the code worth knowing:

- A resolved id is kept only if it is truthy, so an empty-string id counts as not found (app.py:225).
- A search hit without `videoId` raises inside the `try`. That ends the whole scan with `None`, even if a later hit would pass (app.py:137, 144-146).
- The attempt budget counts draws (resolver calls), not availability checks. One draw can make up to one check per search hit (app.py:136-138, 232).
- A failed status lookup and an unavailable video give the same `false`. Only the log tells them apart (app.py:118-120).
- The code resolves the drawn row first and drops it from the pool afterwards. Both happen on every iteration, so every drawn row is resolved once and removed once (app.py:221-232).

## Model

| member | source | states |
|---|---|---|
| EmotionLabels.TextMood | app.py:64-72 | every text label maps to a mood of the vocabulary; an unmapped label maps to "happy", the default of `EMOTION_MAPPING.get` at app.py:157; the mood is "romantic" exactly for "love" |
| EmotionLabels.FaceMood | app.py:177-187 | every face label maps to a mood other than "romantic"; an unmapped label maps to "happy"; "disgust" maps to "angry" |
| EmotionLabels.FaceMoodPreimages | app.py:177-187 | two distinct face labels share a mood only when they are "angry" and "disgust" |
| MoodFilter.ProfileFor | app.py:197-206 | the lookup never fails; every profile constrains exactly valence and energy, within [0,1] with lo <= hi; an unknown mood gets the happy ranges (0.6-1.0, 0.6-1.0) |
| MoodFilter.Pool | app.py:206-214 | the candidate pool for a mood: exactly the catalog rows satisfying every query condition of the mood's profile, unchanged under their index labels; further properties in UnknownMoodUsesHappy and NoFeatureColumnsKeepsAll |
| MoodFilter.UnknownMoodUsesHappy | app.py:206 | a mood outside the table yields the same pool as "happy" |
| MoodFilter.Conditions | app.py:207-211 | the query conditions are exactly the profile ranges whose feature is a catalog column |
| MoodFilter.Filter | app.py:207-214 | a row is in the pool iff it is a catalog row whose cell lies in [min, max] for every profile feature that is a column; pooled rows are the catalog's rows, unchanged |
| MoodFilter.NoFeatureColumnsKeepsAll | app.py:213-214 | when no profile feature is a column, the pool is the whole catalog |
| MoodFilter.NonColumnFeatureIgnored | app.py:207-211 | changing a row's value for a feature that is not a column never changes whether the row is pooled |
| MoodFilter.FilterIdempotent | app.py:207-214 | filtering the pool again with the same profile gives the same pool |
| YouTubeOracle.Blocked | app.py:111 | definition of the blocked-list default (empty when `regionRestriction` or its `blocked` list is absent); AvailableIff states it through the check |
| YouTubeOracle.Playable | app.py:107-117 | a playable video is embeddable and public; a video whose `licensedContent` is false is never playable |
| YouTubeOracle.Available | app.py:95-120 | definition of `check_video_availability`: true only when the lookup returned at least one item and the first is playable; an empty item list gives false; the full characterisation is AvailableIff |
| YouTubeOracle.AvailableIff | app.py:103-117 | the check holds iff the lookup succeeded with a first item that is embeddable (absent = false), public, not blocked in "US" (absent list = empty) and licensed (absent = true) |
| YouTubeOracle.UnavailableOnEmptyOrFailure | app.py:103-105 | an empty item list or a failed lookup makes the check false |
| YouTubeOracle.FirstAvailable | app.py:136-143 | the scan over the search hits: any id it returns is carried by some hit and passed the availability check; the exact first-hit characterisation is FirstAvailableIff |
| YouTubeOracle.Resolve | app.py:122-146 | the value `get_youtube_audio_id` returns: `None` when the search fails; otherwise an id carried by a search hit that passed the availability check |
| YouTubeOracle.FirstAvailableIff | app.py:136-140 | the scan returns an id iff some hit carries it, it is available, and every earlier hit carries an unavailable id: the first passing hit, never a later one |
| YouTubeOracle.NoneAvailable | app.py:136-143 | when every hit carries an unavailable id, the scan returns None |
| YouTubeOracle.GetYouTubeAudioId | app.py:122-146 | the loop returns exactly the first-available scan of the search hits (None when the search fails); a returned id passed the availability check |
| Recommender.Accepted | app.py:225 | definition of `if youtube_id:` (present and non-empty); DiscoveriesSound proves every recommended id is non-empty |
| Recommender.Discoveries | app.py:220-230 | the recommendations made by a sequence of draws number at most the draws |
| Recommender.DiscoveriesSound | app.py:223-230 | each recommendation carries a drawn row's name and artist and a non-empty id that the resolver returned for them and that passed the availability check |
| Recommender.AllRejectedFindsNothing | app.py:225-230 | when no draw resolves to an accepted id, there are no recommendations |
| Recommender.DrawOne | app.py:220-232 | one iteration keeps the draws distinct and the quota unmet before each draw, and appends exactly the drawn row's recommendation when its id is accepted |
| Recommender.SampleRecommendations | app.py:216-235 | draws are distinct pool rows; their number (attempts) is at most the budget and the pool size; the result is the draws' discoveries in order, at most the quota, or None when empty; the loop stops only at the quota, the budget or an empty pool, and never draws after the quota is met; an empty pool makes no draw and returns None |
| Recommender.GetSongRecommendation | app.py:195-235 | with quota 10 and budget 30: every draw is a distinct catalog row inside the mood's ranges; attempts are at most 30; the result is at most 10 discoveries, or None when there are none |
| Recommender.BudgetExhausted | app.py:218-232 | with a budget of 5, a pool of at least 5 rows and every resolution rejected: exactly 5 draws and result None |
| Recommender.TextMoodProfiled | app.py:197-206 | a text mood has its own profile unless the label is "love", whose mood "romantic" filters as "happy" |
| Recommender.FaceMoodProfiled | app.py:177-187 | every face mood has its own profile |
| PlayerQueue.ListedFor | script.js:288-295 | definition of `songQueue.slice(1)`; ClickListItem proves the clicked entry is the song under the cursor |
| PlayerQueue.Player.constructor | script.js:6-7 | the queue starts empty with the cursor at 0, a valid state |
| PlayerQueue.Player.PlayNextSong | script.js:121-126 | the cursor moves up by one, and that song is played, only when the queue is non-empty and the cursor is below len-1; otherwise nothing changes; validity is preserved |
| PlayerQueue.Player.PlayPreviousSong | script.js:128-133 | the cursor moves down by one only when the queue is non-empty and the cursor is above 0; otherwise nothing changes; validity is preserved |
| PlayerQueue.Player.DisplayResultsAsWritten | script.js:270-301 | missing data, emotion or songs changes nothing; otherwise the queue becomes the songs and the cursor 0, and the list is replaced only when the songs are non-empty |
| PlayerQueue.Player.DisplayResults | script.js:270-301 | as above, but an accepted response always replaces the list, so the state is valid afterwards |
| PlayerQueue.Player.ClickListItem | script.js:288-292 | clicking entry k sets the cursor to k+1 and plays that entry; in a valid state the cursor stays in bounds and the played song is the song under the cursor |
| PlayerQueue.StaleListClick | script.js:283-299 | with the as-written display, a two-song response, then an empty one, then a click on the first entry leaves cursor 1 on an empty queue, playing a song outside the queue |
| PlayerQueue.NoStaleListClick | script.js:283-299 | with the corrected display, the same responses leave no entry to click |
| PlayerFormat.NatToString | script.js:218 | the decimal text of a whole number is all digits, one digit exactly below 10, and has no leading zero |
| PlayerFormat.MinutesAndSeconds | script.js:216-217 | for a non-negative position, the minutes and the seconds are the quotient and the remainder by 60 of its whole seconds |
| PlayerFormat.PaddedSeconds | script.js:218 | the seconds field is two digits that read back as the seconds |
| PlayerFormat.FormatTime | script.js:214-219 | NaN and 0 render as "0:00"; the rendering of other positions is stated by FormatTimeWhole, FormatTimeRoundTrip and FormatTimeNegative |
| PlayerFormat.FormatTimeWhole | script.js:214-219 | for s > 0 whole seconds: floor(s/60), a colon, then s mod 60 zero-padded to two digits |
| PlayerFormat.FormatTimeRoundTrip | script.js:214-219 | reading the output back as m:ss gives the whole seconds of any non-negative position, including "0:00" for 0 |
| PlayerFormat.FormatTimeNegative | script.js:214-219 | worked example, for documentation: a negative position keeps JavaScript's signs, so -5 renders as "-1:-5" |
| PlayerFormat.IconFor | script.js:221-229 | exactly one icon is chosen: mute iff the volume is 0, down iff it is 1-49, up iff it is 50 or more |
| PlayerFormat.IconMonotone | script.js:221-229 | a louder position never shows a quieter icon |

The rule "any sequence of next/previous calls keeps the cursor in bounds" follows by induction on the sequence. `Valid()` holds initially; every `Player` method except `DisplayResultsAsWritten` preserves it, and the corrected `DisplayResults` establishes it on any accepted response; `DisplayResultsAsWritten` breaks it (see ## Findings).

## Findings

| source | as written | input that shows it | evidently intended | confidence | as-written member | corrected member |
|---|---|---|---|---|---|---|
| script.js:283-299 | `songList.empty()` runs only when the new queue is non-empty, so a response with `songs: []` leaves the old list entries clickable | `displayResults({emotion:'happy', songs:[a, b]})`, then `displayResults({emotion:'sad', songs:[]})`, then a click on the first list entry: cursor 1 on an empty queue, playing `b` | the list always mirrors the queue, so a clicked entry is the song under the cursor | low, not executed (the server answers 404 rather than send an empty song list, app.py:319-320 and script.js:323-325; besides, both fetch handlers call `showLoading()` (script.js:310, 340), which hides `#result` (script.js:256), and the empty-songs branch never shows it again because `resultDiv.show()` (script.js:297) runs only when there are songs, so if `#song-list` sits inside `#result` the stale entries are not even visible; the page markup is not part of this model) | PlayerQueue.StaleListClick | PlayerQueue.Player.DisplayResults |

## Left out

- Flask routing, login, registration, logout, sessions, the SQLAlchemy user store and the error handlers (app.py:86-93, 240-346). These are HTTP and persistence plumbing.
- Text and face emotion inference (app.py:54-61, 148-175). This includes tokenisation, softmax, argmax and the max over face scores. These are ML and floating-point numerics; only the label tables are modelled.
- The YouTube transport (app.py:83-84, 97-101, 125-134). Abstract `search` and `lookup` functions stand in for it. Being fixed functions, they give the same answer to the same arguments within a run, whereas the real calls are external and can differ, for example on a transient failure; no contract depends on this.
  - The query string (app.py:124) is not modelled.
  - The request filters are not modelled: `maxResults=10`, `type`, category, embeddable and syndicated. The hits are whatever the search function returns.
- pandas CSV loading, logging, and base64/OpenCV image decoding (app.py:21-51, 74-80, 308-310). These are I/O.
- The `eval` of the serialized artist list (app.py:222). The artist is an opaque string field of the row.
- Randomness of `sample(1)`. The model makes an arbitrary choice from the pool, not a uniform one.
- Other exceptions inside `get_song_recommendation` (app.py:236-238). These are a catalog with no `name` or no `artists` column, an `artists` string that `eval` rejects, and an `artists` string that evaluates to `[]`, so that `[0]` raises (app.py:222). The catch-all turns each into `None`, discarding the recommendations already found; `Catalog.columns` is consulted only for the feature ranges, and the model takes `name` and `artists` to be columns, so it has none of these. A NaN `name` cell does not raise: `str(nan)` is `'nan'`, which only ends up in the search query.
- Player callbacks, the `setInterval`/`setTimeout` retries of `playSong`, progress-bar percentages and seeking, the webcam, canvas, `fetch` and jQuery DOM updates (script.js). `playSong` appears only as the song each operation returns.
- Player.PlayPreviousSong: when the cursor is past the end of a non-empty queue, JavaScript would pass `undefined` to `playSong`, which throws once the player is ready (script.js:136 returns early before that otherwise); the model returns no song either way. No reachable state has such a cursor.
- PlayerFormat.FormatTime: positions are exact reals, not IEEE doubles, so double rounding is not modelled (above 2^53 not every whole number is a double); and `toString()` writes whole numbers of 1e21 and above in exponent form (`Math.floor(6e22 / 60)` gives "1e+21"), while `NatToString` always writes every digit. FormatTimeWhole and FormatTimeRoundTrip therefore hold in JavaScript only for positions below those magnitudes; no playback position reaches them.
- PlayerFormat.FormatTimeRoundTrip: only non-negative positions are covered. `formatTime` of `Infinity` is not modelled, because `JsNumber` holds only NaN and finite reals.
- PlayerFormat.IconFor: the slider value is taken to be the decimal text of a whole number from 0 up. Other strings that `$(this).val()` could return are not modelled.
