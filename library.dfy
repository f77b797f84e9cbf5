/**
 * The records the screens pass around, and the handler logic that several
 * screens share word for word: the search effect and the play-all and
 * shuffle guards.
 *
 * The playback queue (`playSong`, `playShuffled`, `playSongFromQueue`,
 * `clearQueue`) lives in a file that is not part of this model. A handler
 * that would call it instead returns the call it makes, as a `PlayRequest`
 * value, so the model says which call is made and with what, and nothing
 * about what the queue then does.
 */
module Library {
  import opened Text

  /** A song row as the screens see it. Absent text fields are "". */
  datatype Song = Song(
    id: nat,
    title: string,
    artist: string,
    artistNameString: string,
    genreString: string,
    album: string,
    duration: nat,
    path: string,
    coverImagePath: string)

  datatype Artist = Artist(id: nat, name: string, coverImagePath: string)

  datatype Playlist = Playlist(id: nat, name: string, description: string, coverImage: string)

  datatype Genre = Genre(id: nat, name: string, icon: string, color: string)

  /** The call a handler makes into the playback queue, if any. */
  datatype PlayRequest =
    | NoPlay
    | PlaySong(song: Song, context: seq<Song>)
    | PlayShuffled(context: seq<Song>)

  /** `handlePlayAll`: play the first song of the shown list, with the whole
      list as the queue; nothing at all on an empty list. */
  function PlayAll(list: seq<Song>): (r: PlayRequest)
    ensures r.NoPlay? <==> list == []
    ensures r.PlaySong? ==> r.context == list && r.song == r.context[0]
    ensures !r.PlayShuffled?
  {
    if |list| > 0 then PlaySong(list[0], list) else NoPlay
  }

  /** `handleShuffle`: hand the whole shown list to the shuffler; nothing at
      all on an empty list. */
  function Shuffle(list: seq<Song>): (r: PlayRequest)
    ensures r.NoPlay? <==> list == []
    ensures r.PlayShuffled? ==> r.context == list
    ensures !r.PlaySong?
  {
    if |list| > 0 then PlayShuffled(list) else NoPlay
  }

  /** The search effect of the list screens: a blank query (after trim)
      shows the whole list, any other query shows what the search returned. */
  function Shown<T>(query: string, all: seq<T>, results: seq<T>): (r: seq<T>)
    ensures AllSpace(query) ==> r == all
    ensures !AllSpace(query) ==> r == results
  {
    BlankIffAllSpace(query);
    if Trim(query) == "" then all else results
  }
}
