/**
 * `check_video_availability` and `get_youtube_audio_id` of app.py. The two
 * YouTube calls (`videos().list` and `search().list`) are parameters: each
 * returns the response items, or `None` when the call raised, which the
 * source catches and turns into "unavailable" / "no id".
 */
module YouTubeOracle {
  import opened Wrappers

  /** The region the blocked list is checked against. */
  const TargetRegion := "US"

  /** `status` of a video resource; each field may be absent from the response. */
  datatype Status = Status(embeddable: Option<bool>, privacyStatus: Option<string>)

  /** `contentDetails.regionRestriction`; its `blocked` list may be absent. */
  datatype RegionRestriction = RegionRestriction(blocked: Option<seq<string>>)

  /** `contentDetails` of a video resource. */
  datatype ContentDetails = ContentDetails(regionRestriction: Option<RegionRestriction>, licensedContent: Option<bool>)

  /** One item of a `videos().list` response. */
  datatype Video = Video(status: Status, contentDetails: ContentDetails)

  /** One item of a `search().list` response; `id.videoId` may be absent. */
  datatype SearchHit = SearchHit(videoId: Option<string>)

  /** `videos().list(id=...)`: the response items, or `None` when the call raised. */
  type VideoLookup = string -> Option<seq<Video>>

  /** `search().list(...)` for a song name and artist: the hits, or `None` when the call raised. */
  type SongSearch = (string, string) -> Option<seq<SearchHit>>

  /** The blocked-region list, with both missing levels read as the empty list. */
  function Blocked(d: ContentDetails): seq<string> {
    match d.regionRestriction
    case None => []
    case Some(rr) => rr.blocked.GetOr([])
  }

  /**
   * The availability decision on the first item: a missing `embeddable` counts
   * as false, a missing blocked list as empty, a missing `licensedContent` as true.
   */
  predicate Playable(v: Video)
    ensures Playable(v) ==> v.status.embeddable == Some(true) && v.status.privacyStatus == Some("public")
    ensures v.contentDetails.licensedContent == Some(false) ==> !Playable(v)
  {
    && v.status.embeddable.GetOr(false)
    && v.status.privacyStatus == Some("public")
    && TargetRegion !in Blocked(v.contentDetails)
    && v.contentDetails.licensedContent.GetOr(true)
  }

  /** `check_video_availability(video_id)`. */
  predicate Available(lookup: VideoLookup, videoId: string)
    ensures Available(lookup, videoId) ==>
      lookup(videoId).Some? && |lookup(videoId).value| > 0 && Playable(lookup(videoId).value[0])
    ensures lookup(videoId) == Some([]) ==> !Available(lookup, videoId)
  {
    match lookup(videoId)
    case None => false
    case Some(items) => |items| > 0 && Playable(items[0])
  }

  /** The decision spelled out field by field: true exactly when all four conditions hold. */
  lemma AvailableIff(lookup: VideoLookup, videoId: string)
    ensures Available(lookup, videoId) <==>
      && lookup(videoId).Some? && |lookup(videoId).value| > 0
      && var s, d := lookup(videoId).value[0].status, lookup(videoId).value[0].contentDetails;
         && s.embeddable == Some(true)
         && s.privacyStatus == Some("public")
         && (d.regionRestriction.None? || d.regionRestriction.value.blocked.None? ||
             TargetRegion !in d.regionRestriction.value.blocked.value)
         && d.licensedContent != Some(false)
  {
  }

  /** An empty `items` list or a failed call makes the check false. */
  lemma UnavailableOnEmptyOrFailure(lookup: VideoLookup, videoId: string)
    requires lookup(videoId) == None || lookup(videoId) == Some([])
    ensures !Available(lookup, videoId)
  {
  }

  /**
   * The scan of `get_youtube_audio_id` over the search hits in order: the first
   * available id, with a hit lacking `videoId` raising and so ending the scan with `None`.
   */
  function FirstAvailable(hits: seq<SearchHit>, lookup: VideoLookup): (r: Option<string>)
    ensures r.Some? ==> Available(lookup, r.value) && exists k :: 0 <= k < |hits| && hits[k].videoId == r
  {
    if hits == [] then None
    else match hits[0].videoId
      case None => None
      case Some(id) => if Available(lookup, id) then Some(id) else FirstAvailable(hits[1..], lookup)
  }

  /** What `get_youtube_audio_id(song_name, artist)` returns. */
  function Resolve(search: SongSearch, lookup: VideoLookup, name: string, artist: string): (r: Option<string>)
    ensures search(name, artist).None? ==> r.None?
    ensures r.Some? ==> Available(lookup, r.value) && exists k :: 0 <= k < |search(name, artist).value| && search(name, artist).value[k].videoId == r
  {
    match search(name, artist)
    case None => None
    case Some(hits) => FirstAvailable(hits, lookup)
  }

  /** Every hit before index `k` carries an id that is not available. */
  predicate RejectedBefore(hits: seq<SearchHit>, lookup: VideoLookup, k: int)
    requires 0 <= k <= |hits|
  {
    forall j :: 0 <= j < k ==> hits[j].videoId.Some? && !Available(lookup, hits[j].videoId.value)
  }

  /**
   * The scan returns `id` exactly when some hit carries `id`, that id is
   * available, and every earlier hit carries an unavailable id: the first
   * passing hit and never a later one.
   */
  lemma {:induction false} FirstAvailableIff(hits: seq<SearchHit>, lookup: VideoLookup, id: string)
    ensures FirstAvailable(hits, lookup) == Some(id) <==>
      exists k :: 0 <= k < |hits| && hits[k].videoId == Some(id) && Available(lookup, id) &&
        RejectedBefore(hits, lookup, k)
  {
    if hits == [] {
    } else if hits[0].videoId.None? {
      assert !RejectedBefore(hits, lookup, 1);
      forall k | 0 < k < |hits|
        ensures !RejectedBefore(hits, lookup, k)
      {
      }
    } else if Available(lookup, hits[0].videoId.value) {
      if FirstAvailable(hits, lookup) == Some(id) {
        assert RejectedBefore(hits, lookup, 0);
      }
      forall k | 0 < k < |hits|
        ensures !RejectedBefore(hits, lookup, k)
      {
      }
    } else {
      FirstAvailableIff(hits[1..], lookup, id);
      if FirstAvailable(hits, lookup) == Some(id) {
        var k :| 0 <= k < |hits[1..]| && hits[1..][k].videoId == Some(id) && Available(lookup, id) &&
          RejectedBefore(hits[1..], lookup, k);
        assert RejectedBefore(hits, lookup, k + 1);
      }
      if exists k :: 0 <= k < |hits| && hits[k].videoId == Some(id) && Available(lookup, id) &&
          RejectedBefore(hits, lookup, k)
      {
        var k :| 0 <= k < |hits| && hits[k].videoId == Some(id) && Available(lookup, id) &&
          RejectedBefore(hits, lookup, k);
        assert k != 0;
        assert RejectedBefore(hits[1..], lookup, k - 1);
      }
    }
  }

  /** With no hit available (and every hit carrying an id) the scan finds nothing. */
  lemma {:induction false} NoneAvailable(hits: seq<SearchHit>, lookup: VideoLookup)
    requires RejectedBefore(hits, lookup, |hits|)
    ensures FirstAvailable(hits, lookup) == None
  {
    if hits != [] {
      assert RejectedBefore(hits[1..], lookup, |hits| - 1);
      NoneAvailable(hits[1..], lookup);
    }
  }

  /**
   * `get_youtube_audio_id`: walk the search hits in the order returned and
   * return the first id that passes the availability check.
   */
  method GetYouTubeAudioId(name: string, artist: string, search: SongSearch, lookup: VideoLookup)
    returns (r: Option<string>)
    ensures r == Resolve(search, lookup, name, artist)
    ensures r.Some? ==> Available(lookup, r.value)
  {
    var response := search(name, artist);
    if response.None? {
      return None;
    }
    var hits := response.value;
    var i := 0;
    while i < |hits|
      invariant 0 <= i <= |hits|
      invariant FirstAvailable(hits[i..], lookup) == FirstAvailable(hits, lookup)
    {
      assert hits[i..][1..] == hits[i + 1..];
      var videoId := hits[i].videoId;
      if videoId.None? {
        return None;
      }
      if Available(lookup, videoId.value) {
        return videoId;
      }
      i := i + 1;
    }
    return None;
  }
}
