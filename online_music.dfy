/**
 * The online music screen: the "hot songs" and search requests and how
 * their answers update the list, the preview gate on a tap, and the
 * screen's duration format.
 *
 * The HTTP request, JSON decoding and the two-second debounce are not
 * modelled: a request's answer arrives as a `Response` value.
 */
module OnlineMusic {
  import opened Text
  import Queue

  /** A track as the remote chart and search answers list it. An absent
      preview URL is "". */
  datatype OnlineSong = OnlineSong(id: nat, title: string, artistName: string, duration: nat, preview: string)

  /** What a request ended with: it threw (network or JSON failure), or it
      produced a body whose `data` array may be missing. */
  datatype Response = Threw | Body(data: Option<seq<OnlineSong>>)

  datatype Request = Hot | Search(query: string)

  const HotError: string := "Failed to load songs. Check internet connection."
  const SearchError: string := "Failed to search. Please try again."

  /** This screen's duration format: "m:ss" for every duration, zero included. */
  function FormatDuration(seconds: nat): (r: string)
    ensures ReadsAsClock(r, seconds)
  {
    ClockRoundTrip(seconds);
    Clock(seconds)
  }

  /** Zero seconds shows as "0:00" here, where the queue shows "--:--". */
  lemma ZeroDuration()
    ensures FormatDuration(0) == "0:00"
    ensures FormatDuration(0) != Queue.FormatDuration(0)
  {
    assert NatToString(0) == "0";
    assert PadTwo(0) == "00";
  }

  /** On any positive duration the two formats agree. */
  lemma AgreesWithQueueFormat(seconds: nat)
    requires seconds > 0
    ensures FormatDuration(seconds) == Queue.FormatDuration(seconds)
  {
  }

  /** `searchSongs(query)`: a blank query reloads the hot songs instead. */
  function Dispatch(query: string): (r: Request)
    ensures r == Hot <==> AllSpace(query)
    ensures r.Search? ==> r.query == query
  {
    BlankIffAllSpace(query);
    if Trim(query) == "" then Hot else Search(query)
  }

  function ErrorFor(request: Request): (m: string)
    ensures m != ""
    ensures request.Hot? <==> m == HotError
  {
    if request.Hot? then HotError else SearchError
  }

  /** What tapping a song does. */
  datatype Tap = PlayOnline(song: OnlineSong) | PreviewNotice | NoPreviewNotice

  /** `handleSongPress`: only a song with a preview URL is ever handed to
      `playOnlineSong`, and then only when the playback state provides it. */
  function HandleSongPress(song: OnlineSong, hasPlayOnlineSong: bool): (r: Tap)
    ensures r.PlayOnline? <==> song.preview != "" && hasPlayOnlineSong
    ensures r.PlayOnline? ==> r.song == song
    ensures song.preview == "" <==> r == NoPreviewNotice
  {
    if song.preview != "" then
      if hasPlayOnlineSong then PlayOnline(song) else PreviewNotice
    else
      NoPreviewNotice
  }

  /** The screen's list and request status. */
  class OnlineMusicScreen {
    var songs: seq<OnlineSong>
    var searchQuery: string
    var loading: bool
    var error: string

    constructor ()
      ensures songs == [] && searchQuery == "" && !loading && error == ""
    {
      songs, searchQuery, loading, error := [], "", false, "";
    }

    /** `handleSearchChange`: the query box follows the text at once; the
        request it schedules is `Dispatch(text)`. */
    method HandleSearchChange(text: string) returns (scheduled: Request)
      modifies this`searchQuery
      ensures searchQuery == text && scheduled == Dispatch(text)
    {
      searchQuery := text;
      scheduled := Dispatch(text);
    }

    /** The start of either request: spinner on, message cleared. */
    method Begin()
      modifies this`loading, this`error
      ensures loading && error == ""
    {
      loading := true;
      error := "";
    }

    /** The end of a request: the list is replaced only by a `data` array;
        a failure keeps the list and sets the request's message; the
        spinner is off in every case. Requests may overlap, so the message
        is left as it is on success rather than assumed empty. */
    method Finish(request: Request, response: Response)
      modifies this`songs, this`loading, this`error
      ensures response.Body? && response.data.Some? ==> songs == response.data.value
      ensures !(response.Body? && response.data.Some?) ==> songs == old(songs)
      ensures error == if response.Threw? then ErrorFor(request) else old(error)
      ensures !loading
    {
      match response {
        case Threw =>
          error := ErrorFor(request);
        case Body(data) =>
          if data.Some? {
            songs := data.value;
          }
      }
      loading := false;
    }
  }
}
