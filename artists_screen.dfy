/**
 * The artists screen: its search, and the create, edit, delete and
 * long-press handlers with the guards that decide whether the storage
 * layer is called and whether the list is reloaded.
 *
 * `getAllArtists`, `searchArtists`, `createArtist`, `updateArtist` and
 * `deleteArtist` are not part of this model: each handler returns the call
 * it makes as a value, and takes the storage layer's answer (and the list
 * a reload would fetch) as parameters.
 */
module Artists {
  import opened Text
  import opened Library

  datatype CreateCall = CreateCall(name: string, imageUri: string)

  datatype UpdateCall = UpdateCall(artistId: nat, name: string, coverImagePath: string)

  class ArtistsScreen {
    var artists: seq<Artist>
    var filteredArtists: seq<Artist>
    var searchQuery: string
    var showCreateModal: bool
    var showEditModal: bool
    var selectedArtist: Option<Artist>

    constructor ()
      ensures artists == [] && filteredArtists == [] && searchQuery == ""
      ensures !showCreateModal && !showEditModal && selectedArtist.None?
    {
      artists, filteredArtists, searchQuery := [], [], "";
      showCreateModal, showEditModal, selectedArtist := false, false, None;
    }

    /** `loadArtists`: `all` is what `getAllArtists` returned. */
    method LoadArtists(all: seq<Artist>)
      modifies this`artists, this`filteredArtists
      ensures artists == all && filteredArtists == all
    {
      artists := all;
      filteredArtists := all;
    }

    /** The search effect; `results` is what `searchArtists(searchQuery)` returned. */
    method ApplySearch(results: seq<Artist>)
      modifies this`filteredArtists
      ensures filteredArtists == Shown(searchQuery, artists, results)
    {
      var shown := Shown(searchQuery, artists, results);
      filteredArtists := shown;
    }

    /** `handleCreateArtist`: a blank name calls nothing and leaves the
        modal open; otherwise `createArtist` gets the trimmed name, the
        list is reloaded only if it returned an id, and the modal closes
        either way. */
    method HandleCreateArtist(name: string, imageUri: string, created: bool, reloaded: seq<Artist>)
      returns (call: Option<CreateCall>)
      modifies this
      ensures AllSpace(name) ==> call.None? && showCreateModal == old(showCreateModal)
      ensures !AllSpace(name) ==> call == Some(CreateCall(Trim(name), imageUri)) && !showCreateModal
      ensures call.Some? && created ==> artists == reloaded && filteredArtists == reloaded
      ensures !(call.Some? && created) ==> artists == old(artists) && filteredArtists == old(filteredArtists)
      ensures showEditModal == old(showEditModal) && selectedArtist == old(selectedArtist)
      ensures searchQuery == old(searchQuery)
    {
      BlankIffAllSpace(name);
      if Trim(name) == "" {
        return None;
      }
      call := Some(CreateCall(Trim(name), imageUri));
      if created {
        LoadArtists(reloaded);
      }
      showCreateModal := false;
    }

    /** `handleEditArtist`: with a blank name or no selected artist nothing
        happens; otherwise `updateArtist` gets the selected artist's id, the
        trimmed name and the image, the list is reloaded only on success,
        and the modal closes and the selection is cleared either way. */
    method HandleEditArtist(name: string, imageUri: string, success: bool, reloaded: seq<Artist>)
      returns (call: Option<UpdateCall>)
      modifies this
      ensures AllSpace(name) || old(selectedArtist).None? ==>
        call.None? && showEditModal == old(showEditModal) && selectedArtist == old(selectedArtist)
      ensures !AllSpace(name) && old(selectedArtist).Some? ==>
        call == Some(UpdateCall(old(selectedArtist).value.id, Trim(name), imageUri)) &&
        !showEditModal && selectedArtist.None?
      ensures call.Some? && success ==> artists == reloaded && filteredArtists == reloaded
      ensures !(call.Some? && success) ==> artists == old(artists) && filteredArtists == old(filteredArtists)
      ensures showCreateModal == old(showCreateModal) && searchQuery == old(searchQuery)
    {
      BlankIffAllSpace(name);
      if Trim(name) == "" || selectedArtist.None? {
        return None;
      }
      call := Some(UpdateCall(selectedArtist.value.id, Trim(name), imageUri));
      if success {
        LoadArtists(reloaded);
      }
      showEditModal := false;
      selectedArtist := None;
    }

    /** The confirmed "Delete" of `handleDeleteArtist`: `deleteArtist` gets
        the artist's id, and the list is reloaded only on success. */
    method HandleDeleteArtist(artist: Artist, success: bool, reloaded: seq<Artist>) returns (deletedId: nat)
      modifies this`artists, this`filteredArtists
      ensures deletedId == artist.id
      ensures success ==> artists == reloaded && filteredArtists == reloaded
      ensures !success ==> artists == old(artists) && filteredArtists == old(filteredArtists)
    {
      deletedId := artist.id;
      if success {
        LoadArtists(reloaded);
      }
    }

    /** The long-press menu's "Edit": select the artist and open the edit modal. */
    method LongPressEdit(artist: Artist)
      modifies this`selectedArtist, this`showEditModal
      ensures selectedArtist == Some(artist) && showEditModal
    {
      selectedArtist := Some(artist);
      showEditModal := true;
    }
  }
}
