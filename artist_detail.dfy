/**
 * The artist detail screen: adding a song to an artist and removing it,
 * keeping each song's derived `artist_name_string` equal to the names of
 * its linked artists joined with " & ", and listing the songs that can
 * still be added.
 *
 * `linkSongArtist`, `unlinkSongArtist`, `getArtistsBySong`,
 * `getSongsByArtist`, `getAllSongs` and `updateSong` are imported from
 * the storage layer but are not defined in the files this model covers.
 * `LibraryStore` gives them the smallest behaviour the screen relies on:
 * a link is appended at the end unless the pair is already linked, an
 * unlink removes the pair, the artists of a song come back in link order,
 * and whether a link or unlink succeeds is decided by the store and
 * passed in as `accepted`.
 */
module ArtistDetail {
  import opened Text
  import opened Library

  datatype Link = Link(songId: nat, artistId: nat)

  /** What the selection modal lists: `{ id, name: title }`. */
  datatype SelectionItem = SelectionItem(id: nat, name: string)

  const Separator: string := " & "

  /** The artists linked to a song, in link order; a link whose artist has
      no row is skipped. */
  function ArtistsBySong(links: seq<Link>, artists: map<nat, Artist>, songId: nat): (r: seq<Artist>)
    ensures |r| <= |links|
    ensures forall a :: a in r ==> exists l :: l in links && l.songId == songId && l.artistId in artists && artists[l.artistId] == a
    ensures forall l :: l in links && l.songId == songId && l.artistId in artists ==> artists[l.artistId] in r
  {
    if links == [] then []
    else
      var first := links[0];
      var rest := ArtistsBySong(links[1..], artists, songId);
      assert forall l :: l in links ==> l == first || l in links[1..];
      if first.songId == songId && first.artistId in artists then [artists[first.artistId]] + rest else rest
  }

  lemma {:induction false} ArtistsBySongAppend(links: seq<Link>, extra: seq<Link>, artists: map<nat, Artist>, songId: nat)
    ensures ArtistsBySong(links + extra, artists, songId) ==
      ArtistsBySong(links, artists, songId) + ArtistsBySong(extra, artists, songId)
  {
    if links == [] {
      assert links + extra == extra;
    } else {
      assert (links + extra)[0] == links[0];
      assert (links + extra)[1..] == links[1..] + extra;
      ArtistsBySongAppend(links[1..], extra, artists, songId);
    }
  }

  function Names(artists: seq<Artist>): (r: seq<string>)
    ensures |r| == |artists|
    ensures forall i :: 0 <= i < |artists| ==> r[i] == artists[i].name
  {
    if artists == [] then [] else [artists[0].name] + Names(artists[1..])
  }

  /** `updateSongArtistString`'s value: the linked artists' names, in link
      order, joined with " & ". */
  function ArtistNameString(links: seq<Link>, artists: map<nat, Artist>, songId: nat): string {
    Join(Names(ArtistsBySong(links, artists, songId)), Separator)
  }

  /** A song with no linked artist gets the empty string, not "Unknown Artist". */
  lemma {:induction false} NoArtistsGivesEmptyString(links: seq<Link>, artists: map<nat, Artist>, songId: nat)
    requires forall l :: l in links ==> l.songId != songId
    ensures ArtistNameString(links, artists, songId) == ""
  {
    if links != [] {
      NoArtistsGivesEmptyString(links[1..], artists, songId);
    }
  }

  /** The link `linkSongArtist` adds, unless the pair is already there. */
  function Linked(links: seq<Link>, link: Link): (r: seq<Link>)
    ensures forall l :: l in r <==> l in links || l == link
    ensures |links| <= |r| <= |links| + 1 && r[..|links|] == links
  {
    if link in links then links else links + [link]
  }

  /** The links left after `unlinkSongArtist`. */
  function Unlinked(links: seq<Link>, link: Link): (r: seq<Link>)
    ensures forall l :: l in r <==> l in links && l != link
  {
    if links == [] then []
    else (if links[0] == link then [] else [links[0]]) + Unlinked(links[1..], link)
  }

  /** Linking a new artist to a song appends that artist's name to the
      song's string, after " & " when there was a name already. */
  lemma {:induction false} LinkAppendsName(links: seq<Link>, artists: map<nat, Artist>, songId: nat, artistId: nat)
    requires Link(songId, artistId) !in links
    requires artistId in artists
    ensures var before := ArtistNameString(links, artists, songId);
      ArtistNameString(Linked(links, Link(songId, artistId)), artists, songId) ==
        if before == "" && ArtistsBySong(links, artists, songId) == [] then artists[artistId].name
        else before + Separator + artists[artistId].name
  {
    var link := Link(songId, artistId);
    ArtistsBySongAppend(links, [link], artists, songId);
    var old_ := ArtistsBySong(links, artists, songId);
    assert ArtistsBySong([link], artists, songId) == [artists[artistId]];
    assert Names(old_ + [artists[artistId]]) == Names(old_) + [artists[artistId].name];
    if old_ != [] {
      JoinConcat(Names(old_), [artists[artistId].name], Separator);
    }
  }

  /** Linking or unlinking for one song leaves every other song's string as it was. */
  lemma {:induction false} OtherSongsUnaffected(links: seq<Link>, artists: map<nat, Artist>, link: Link, other: nat)
    requires other != link.songId
    ensures ArtistsBySong(Linked(links, link), artists, other) == ArtistsBySong(links, artists, other)
    ensures ArtistsBySong(Unlinked(links, link), artists, other) == ArtistsBySong(links, artists, other)
  {
    ArtistsBySongAppend(links, [link], artists, other);
    UnlinkOther(links, artists, link, other);
  }

  lemma {:induction false} UnlinkOther(links: seq<Link>, artists: map<nat, Artist>, link: Link, other: nat)
    requires other != link.songId
    ensures ArtistsBySong(Unlinked(links, link), artists, other) == ArtistsBySong(links, artists, other)
  {
    if links != [] {
      UnlinkOther(links[1..], artists, link, other);
      var head := if links[0] == link then [] else [links[0]];
      ArtistsBySongAppend(head, Unlinked(links[1..], link), artists, other);
    }
  }

  /** Removing the last-added artist of a song restores the song's
      previous string. */
  lemma {:induction false} UnlinkUndoesLink(links: seq<Link>, artists: map<nat, Artist>, link: Link)
    requires link !in links
    ensures Unlinked(Linked(links, link), link) == links
  {
    UnlinkedAbsent(links, link);
    UnlinkedAppend(links, [link], link);
  }

  lemma {:induction false} UnlinkedAbsent(links: seq<Link>, link: Link)
    requires link !in links
    ensures Unlinked(links, link) == links
  {
    if links != [] {
      assert links[0] != link;
      UnlinkedAbsent(links[1..], link);
      assert [links[0]] + links[1..] == links;
    }
  }

  lemma {:induction false} UnlinkedAppend(a: seq<Link>, b: seq<Link>, link: Link)
    ensures Unlinked(a + b, link) == Unlinked(a, link) + Unlinked(b, link)
  {
    if a == [] {
      assert a + b == b;
    } else {
      assert (a + b)[0] == a[0];
      assert (a + b)[1..] == a[1..] + b;
      UnlinkedAppend(a[1..], b, link);
    }
  }

  /** The worked example of the screen: link song S to artist A, then to B,
      then remove B: the string goes "A", "A & B", "A". */
  lemma LinkTwoThenRemoveScenario(artists: map<nat, Artist>, s: nat, a: nat, b: nat)
    requires a in artists && b in artists && a != b
    ensures var l1 := Linked([], Link(s, a));
      var l2 := Linked(l1, Link(s, b));
      ArtistNameString(l1, artists, s) == artists[a].name &&
      ArtistNameString(l2, artists, s) == artists[a].name + " & " + artists[b].name &&
      ArtistNameString(Unlinked(l2, Link(s, b)), artists, s) == artists[a].name
  {
    var l1 := Linked([], Link(s, a));
    LinkAppendsName([], artists, s, a);
    LinkAppendsName(l1, artists, s, b);
    UnlinkUndoesLink(l1, artists, Link(s, b));
  }

  /** `updateSong(songId, { artist_name_string })` on the song list: that
      field of that song, and nothing else, changes. */
  function SetArtistString(songs: seq<Song>, songId: nat, value: string): (r: seq<Song>)
    ensures |r| == |songs|
    ensures forall i :: 0 <= i < |songs| && songs[i].id == songId ==> r[i] == songs[i].(artistNameString := value)
    ensures forall i :: 0 <= i < |songs| && songs[i].id != songId ==> r[i] == songs[i]
  {
    seq(|songs|, i requires 0 <= i < |songs| =>
      if songs[i].id == songId then songs[i].(artistNameString := value) else songs[i])
  }

  function Ids(songs: seq<Song>): (r: seq<nat>)
    ensures |r| == |songs|
    ensures forall i :: 0 <= i < |songs| ==> r[i] == songs[i].id
  {
    if songs == [] then [] else [songs[0].id] + Ids(songs[1..])
  }

  /** `loadAvailableSongs`: the songs of the catalogue whose id is not among
      the artist's songs, in catalogue order, as selection items. */
  function AvailableSongs(all: seq<Song>, mine: seq<Song>): (r: seq<SelectionItem>)
    ensures |r| <= |all|
    ensures forall it :: it in r <==>
      exists s :: s in all && s.id !in Ids(mine) && it == SelectionItem(s.id, s.title)
  {
    if all == [] then []
    else
      var rest := AvailableSongs(all[1..], mine);
      var head := if all[0].id in Ids(mine) then [] else [SelectionItem(all[0].id, all[0].title)];
      assert forall s :: s in all <==> s == all[0] || s in all[1..];
      head + rest
  }

  /** The filter keeps the catalogue's order: it works piece by piece. */
  lemma {:induction false} AvailableSongsAppend(a: seq<Song>, b: seq<Song>, mine: seq<Song>)
    ensures AvailableSongs(a + b, mine) == AvailableSongs(a, mine) + AvailableSongs(b, mine)
  {
    if a == [] {
      assert a + b == b;
    } else {
      assert (a + b)[0] == a[0];
      assert (a + b)[1..] == a[1..] + b;
      AvailableSongsAppend(a[1..], b, mine);
    }
  }

  /** The songs linked to an artist, in catalogue order (`getSongsByArtist`). */
  function SongsByArtist(links: seq<Link>, songs: seq<Song>, artistId: nat): (r: seq<Song>)
    ensures forall s :: s in r <==> s in songs && Link(s.id, artistId) in links
  {
    if songs == [] then []
    else
      var rest := SongsByArtist(links, songs[1..], artistId);
      assert forall s :: s in songs <==> s == songs[0] || s in songs[1..];
      (if Link(songs[0].id, artistId) in links then [songs[0]] else []) + rest
  }

  /** The library as the screen sees it through the storage layer. */
  class LibraryStore {
    var songs: seq<Song>
    var artists: map<nat, Artist>
    var links: seq<Link>

    constructor (songs: seq<Song>, artists: map<nat, Artist>, links: seq<Link>)
      ensures this.songs == songs && this.artists == artists && this.links == links
    {
      this.songs, this.artists, this.links := songs, artists, links;
    }

    /** `linkSongArtist`: on success the pair is linked (appended when new). */
    method LinkSongArtist(songId: nat, artistId: nat, accepted: bool) returns (success: bool)
      modifies this
      ensures success == accepted
      ensures links == if success then Linked(old(links), Link(songId, artistId)) else old(links)
      ensures songs == old(songs) && artists == old(artists)
    {
      success := accepted;
      if success {
        links := Linked(links, Link(songId, artistId));
      }
    }

    /** `unlinkSongArtist`: on success the pair is no longer linked. */
    method UnlinkSongArtist(songId: nat, artistId: nat, accepted: bool) returns (success: bool)
      modifies this
      ensures success == accepted
      ensures links == if success then Unlinked(old(links), Link(songId, artistId)) else old(links)
      ensures songs == old(songs) && artists == old(artists)
    {
      success := accepted;
      if success {
        links := Unlinked(links, Link(songId, artistId));
      }
    }

    /** `updateSong(songId, { artist_name_string: value })`. */
    method UpdateArtistString(songId: nat, value: string)
      modifies this
      ensures songs == SetArtistString(old(songs), songId, value)
      ensures links == old(links) && artists == old(artists)
    {
      songs := SetArtistString(songs, songId, value);
    }
  }

  /** The state of one artist's detail screen. */
  class ArtistDetailScreen {
    const artist: Artist
    const store: LibraryStore
    var songs: seq<Song>
    var showAddSongsModal: bool
    var availableSongs: seq<SelectionItem>

    constructor (artist: Artist, store: LibraryStore)
      ensures this.artist == artist && this.store == store
      ensures songs == [] && !showAddSongsModal && availableSongs == []
    {
      this.artist, this.store := artist, store;
      songs, showAddSongsModal, availableSongs := [], false, [];
    }

    /** `loadSongs`. */
    method LoadSongs()
      modifies this`songs
      ensures songs == SongsByArtist(store.links, store.songs, artist.id)
    {
      songs := SongsByArtist(store.links, store.songs, artist.id);
    }

    /** `handleAddSongs`: compute the songs that can be added, then open the modal. */
    method HandleAddSongs()
      modifies this`availableSongs, this`showAddSongsModal
      ensures availableSongs == AvailableSongs(store.songs, songs)
      ensures showAddSongsModal
    {
      availableSongs := AvailableSongs(store.songs, songs);
      showAddSongsModal := true;
    }

    /** `updateSongArtistString`: recompute the song's derived string from
        its current links and write that one field. */
    method UpdateSongArtistString(songId: nat)
      modifies store
      ensures store.songs == SetArtistString(old(store.songs), songId, ArtistNameString(store.links, store.artists, songId))
      ensures store.links == old(store.links) && store.artists == old(store.artists)
    {
      var value := ArtistNameString(store.links, store.artists, songId);
      store.UpdateArtistString(songId, value);
    }

    /** `handleSelectSongs`: link the chosen song; only on success recompute
        its string and reload; close the modal in every case. */
    method HandleSelectSongs(selected: SelectionItem, accepted: bool) returns (success: bool)
      modifies this, store
      ensures success == accepted
      ensures !success ==> store.songs == old(store.songs) && store.links == old(store.links) && songs == old(songs)
      ensures success ==> store.links == Linked(old(store.links), Link(selected.id, artist.id))
      ensures success ==>
        store.songs == SetArtistString(old(store.songs), selected.id, ArtistNameString(store.links, store.artists, selected.id))
      ensures success ==> songs == SongsByArtist(store.links, store.songs, artist.id)
      ensures store.artists == old(store.artists)
      ensures !showAddSongsModal && availableSongs == old(availableSongs)
    {
      success := store.LinkSongArtist(selected.id, artist.id, accepted);
      if success {
        UpdateSongArtistString(selected.id);
        LoadSongs();
      }
      showAddSongsModal := false;
    }

    /** `handleRemoveSong`, once the removal is confirmed: unlink; only on
        success recompute the song's string and reload. */
    method HandleRemoveSong(song: Song, accepted: bool) returns (success: bool)
      modifies this, store
      ensures success == accepted
      ensures !success ==> store.songs == old(store.songs) && store.links == old(store.links) && songs == old(songs)
      ensures success ==> store.links == Unlinked(old(store.links), Link(song.id, artist.id))
      ensures success ==>
        store.songs == SetArtistString(old(store.songs), song.id, ArtistNameString(store.links, store.artists, song.id))
      ensures success ==> songs == SongsByArtist(store.links, store.songs, artist.id)
      ensures store.artists == old(store.artists)
      ensures showAddSongsModal == old(showAddSongsModal) && availableSongs == old(availableSongs)
    {
      success := store.UnlinkSongArtist(song.id, artist.id, accepted);
      if success {
        UpdateSongArtistString(song.id);
        LoadSongs();
      }
    }
  }
}
