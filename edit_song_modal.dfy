/**
 * The song editing modal: the form it fills from the song, the record it
 * hands to `onSave`, and the duration line it shows.
 */
module EditSong {
  import opened Text
  import opened Library

  const UnknownArtist: string := "Unknown Artist"

  /** `{ ...song, title, artist, album }` as `handleSave` builds it from the
      form: nothing when the title is blank; otherwise the song with every
      field kept except the three the form edits, each trimmed, and a blank
      artist replaced by "Unknown Artist". The form writes `artist`, so the
      derived `artistNameString` is carried over untouched. */
  function SavedSong(song: Song, title: string, artist: string, album: string): (r: Option<Song>)
    ensures r.None? <==> AllSpace(title)
    ensures r.Some? ==>
      r.value.id == song.id && r.value.artistNameString == song.artistNameString &&
      r.value.genreString == song.genreString && r.value.duration == song.duration &&
      r.value.path == song.path && r.value.coverImagePath == song.coverImagePath
    ensures r.Some? ==>
      r.value.title != "" && !IsSpace(r.value.title[0]) && !IsSpace(r.value.title[|r.value.title| - 1])
    ensures r.Some? ==> r.value.artist == if AllSpace(artist) then UnknownArtist else Trim(artist)
    ensures r.Some? ==> r.value.album == Trim(album) && r.value.title == Trim(title)
  {
    BlankIffAllSpace(title);
    BlankIffAllSpace(artist);
    if Trim(title) == "" then None
    else Some(song.(title := Trim(title), artist := OrDefault(Trim(artist), UnknownArtist), album := Trim(album)))
  }

  /** The duration line: shown only for a positive duration, as "m:ss". */
  function DurationLine(song: Song): (r: Option<string>)
    ensures r.Some? <==> song.duration > 0
    ensures r.Some? ==> ReadsAsClock(r.value, song.duration)
  {
    if song.duration > 0 then
      ClockRoundTrip(song.duration);
      Some(Clock(song.duration))
    else None
  }

  /** The three text boxes of the form. */
  class EditSongForm {
    var title: string
    var artist: string
    var album: string

    constructor ()
      ensures title == "" && artist == "" && album == ""
    {
      title, artist, album := "", "", "";
    }

    predicate Empty()
      reads this
    {
      title == "" && artist == "" && album == ""
    }

    /** The effect on a new `song` prop: fill the form from it; a missing
        song leaves the form as it is. */
    method OnSongChange(song: Option<Song>)
      modifies this
      ensures song.Some? ==> title == song.value.title
      ensures song.Some? ==> artist == OrDefault(song.value.artistNameString, UnknownArtist)
      ensures song.Some? ==> album == song.value.album
      ensures song.None? ==> title == old(title) && artist == old(artist) && album == old(album)
    {
      if song.Some? {
        title := OrDefault(song.value.title, "");
        artist := OrDefault(song.value.artistNameString, UnknownArtist);
        album := OrDefault(song.value.album, "");
      }
    }

    /** `resetForm`. */
    method Reset()
      modifies this
      ensures Empty()
    {
      title, artist, album := "", "", "";
    }

    /** `handleSave`: a blank title does nothing at all; otherwise the
        record goes to `onSave` and the form is emptied. */
    method Save(song: Song) returns (saved: Option<Song>)
      modifies this
      ensures saved == SavedSong(song, old(title), old(artist), old(album))
      ensures saved.None? ==> title == old(title) && artist == old(artist) && album == old(album)
      ensures saved.Some? ==> Empty()
    {
      saved := SavedSong(song, title, artist, album);
      if saved.Some? {
        Reset();
      }
    }

    /** `handleCancel`: empty the form, then call `onCancel`. */
    method Cancel()
      modifies this
      ensures Empty()
    {
      Reset();
    }
  }
}
