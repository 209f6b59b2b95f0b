/**
 * The playback queue of script.js: the globals `songQueue` and
 * `currentSongIndex`, the `<li>` entries of `#song-list` (each bound to a
 * click handler that remembers its song and position), and the functions that
 * update them. Each operation returns the song it hands to `playSong`, if any.
 */
module PlayerQueue {
  import opened Wrappers

  /** One entry of `data.songs`. */
  datatype Song = Song(name: string, artist: string, youtubeId: string)

  /**
   * The parsed server response handed to `displayResults`: `None` for a
   * falsy `data`, and each field `None` when absent.
   */
  datatype Response = Response(emotion: Option<string>, songs: Option<seq<Song>>)

  /**
   * `!data || !data.emotion || !data.songs` is false: the emotion is present
   * and non-empty (the empty string is falsy) and the song list is present
   * (an empty array is truthy).
   */
  predicate Acceptable(data: Option<Response>) {
    && data.Some?
    && data.value.emotion.Some? && data.value.emotion.value != ""
    && data.value.songs.Some?
  }

  /** The list entries shown for a queue: every song after the first. */
  function ListedFor(queue: seq<Song>): seq<Song> {
    if queue == [] then [] else queue[1..]
  }

  class Player {
    var songQueue: seq<Song>
    /** Only ever set to 0, incremented, decremented from above 0, or set to a list position plus one. */
    var currentSongIndex: nat
    /** The songs of the clickable `<li>` entries, in list order. */
    var listed: seq<Song>

    /**
     * The cursor stays in bounds (0 on an empty queue) and the list shows
     * the queue after its first song.
     */
    ghost predicate Valid()
      reads this
    {
      && (currentSongIndex < |songQueue| || (songQueue == [] && currentSongIndex == 0))
      && listed == ListedFor(songQueue)
    }

    /** The page-load state: `songQueue = []`, `currentSongIndex = 0`, an empty list. */
    constructor ()
      ensures Valid()
      ensures songQueue == [] && currentSongIndex == 0 && listed == []
    {
      songQueue := [];
      currentSongIndex := 0;
      listed := [];
    }

    /** `playNextSong`: advance by one only when a next song exists. */
    method PlayNextSong() returns (played: Option<Song>)
      modifies this
      ensures songQueue == old(songQueue) && listed == old(listed)
      ensures old(songQueue) != [] && old(currentSongIndex) < |old(songQueue)| - 1 ==>
        currentSongIndex == old(currentSongIndex) + 1 && played == Some(songQueue[currentSongIndex])
      ensures !(old(songQueue) != [] && old(currentSongIndex) < |old(songQueue)| - 1) ==>
        currentSongIndex == old(currentSongIndex) && played == None
      ensures old(Valid()) ==> Valid()
    {
      played := None;
      if |songQueue| > 0 && currentSongIndex < |songQueue| - 1 {
        currentSongIndex := currentSongIndex + 1;
        played := Some(songQueue[currentSongIndex]);
      }
    }

    /**
     * `playPreviousSong`: step back by one only when a previous song exists.
     * Were the cursor past the end of the queue, `songQueue[currentSongIndex]`
     * would be `undefined` and `playSong` would throw once the player is ready.
     */
    method PlayPreviousSong() returns (played: Option<Song>)
      modifies this
      ensures songQueue == old(songQueue) && listed == old(listed)
      ensures old(songQueue) != [] && old(currentSongIndex) > 0 ==>
        currentSongIndex == old(currentSongIndex) - 1 &&
        played == (if currentSongIndex < |songQueue| then Some(songQueue[currentSongIndex]) else None)
      ensures !(old(songQueue) != [] && old(currentSongIndex) > 0) ==>
        currentSongIndex == old(currentSongIndex) && played == None
      ensures old(Valid()) ==> Valid()
    {
      played := None;
      if |songQueue| > 0 && currentSongIndex > 0 {
        currentSongIndex := currentSongIndex - 1;
        if currentSongIndex < |songQueue| {
          played := Some(songQueue[currentSongIndex]);
        }
      }
    }

    /**
     * `displayResults` as written: invalid data changes nothing; otherwise the
     * queue becomes `data.songs` and the cursor 0, but the old list entries are
     * removed only when the new queue is non-empty.
     */
    method DisplayResultsAsWritten(data: Option<Response>) returns (played: Option<Song>)
      modifies this
      ensures !Acceptable(data) ==>
        songQueue == old(songQueue) && currentSongIndex == old(currentSongIndex) &&
        listed == old(listed) && played == None
      ensures Acceptable(data) ==>
        songQueue == data.value.songs.value && currentSongIndex == 0 &&
        listed == (if songQueue == [] then old(listed) else songQueue[1..]) &&
        played == (if songQueue == [] then None else Some(songQueue[0]))
    {
      played := None;
      if !Acceptable(data) {
        return;
      }
      songQueue := data.value.songs.value;
      currentSongIndex := 0;
      if |songQueue| > 0 {
        played := Some(songQueue[0]);
        listed := songQueue[1..];
      }
    }

    /**
     * `displayResults` with the list emptied whenever new songs are accepted,
     * so that the list always mirrors the queue.
     */
    method DisplayResults(data: Option<Response>) returns (played: Option<Song>)
      modifies this
      ensures !Acceptable(data) ==>
        songQueue == old(songQueue) && currentSongIndex == old(currentSongIndex) &&
        listed == old(listed) && played == None
      ensures Acceptable(data) ==>
        songQueue == data.value.songs.value && currentSongIndex == 0 &&
        listed == ListedFor(songQueue) &&
        played == (if songQueue == [] then None else Some(songQueue[0]))
      ensures Acceptable(data) || old(Valid()) ==> Valid()
    {
      played := None;
      if !Acceptable(data) {
        return;
      }
      songQueue := data.value.songs.value;
      currentSongIndex := 0;
      listed := [];
      if |songQueue| > 0 {
        played := Some(songQueue[0]);
        listed := songQueue[1..];
      }
    }

    /**
     * The click handler of list entry `k`: the cursor becomes `k + 1` and the
     * entry's own song is played. In a valid state that song is the one under
     * the cursor.
     */
    method ClickListItem(k: nat) returns (played: Song)
      requires k < |listed|
      modifies this
      ensures currentSongIndex == k + 1 && played == old(listed)[k]
      ensures songQueue == old(songQueue) && listed == old(listed)
      ensures old(Valid()) ==> Valid() && songQueue[currentSongIndex] == played
    {
      currentSongIndex := k + 1;
      played := listed[k];
    }
  }

  /**
   * With `displayResults` as written, an accepted response with no songs leaves
   * the previous list on the page; clicking its first entry puts the cursor at
   * 1 on an empty queue and plays a song that is not in the queue.
   */
  method StaleListClick(first: Song, second: Song) returns (played: Song, queue: seq<Song>, index: int)
    ensures played == second && queue == [] && index == 1
    ensures index >= |queue| && played !in queue
  {
    var player := new Player();
    var _ := player.DisplayResultsAsWritten(Some(Response(Some("happy"), Some([first, second]))));
    var _ := player.DisplayResultsAsWritten(Some(Response(Some("sad"), Some([]))));
    played := player.ClickListItem(0);
    queue, index := player.songQueue, player.currentSongIndex;
  }

  /** With the corrected `displayResults`, the same sequence of events leaves no entry to click. */
  method NoStaleListClick(first: Song, second: Song) returns (entries: nat)
    ensures entries == 0
  {
    var player := new Player();
    var _ := player.DisplayResults(Some(Response(Some("happy"), Some([first, second]))));
    var _ := player.DisplayResults(Some(Response(Some("sad"), Some([]))));
    entries := |player.listed|;
  }
}
