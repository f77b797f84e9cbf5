# MusicApp core, modelled in Dafny

A model of the logic inside a React Native music player. It covers:

- **Reducer.** The app-state reducer with its initial state.
- **Colours.** The two colour palettes and the theme lookup.
- **Storage.** The SQLite schema that `db.js` declares, with its start-up sequence and the null-handle guard on `executeSql`.
- **Screens.** The decisions that the songs, artist detail, artists, queue and online-music screens make.
- **Forms.** The two text forms: the song editor and the one-line prompt.

Each piece follows the form of the code it comes from:

- Pure code (the reducer, the colour lookup, string and number formatting, record building) becomes datatypes, functions and lemmas.
- Components that change state through setters become classes. Their handlers are methods with `modifies` clauses.
- The loops in `createTables`, `scanDirectory` and the scan's insert loop become loops with invariants. Each is proved against a function that states what it computes.

Modules, one per file:

| file | module | models |
|---|---|---|
| text.dfy | `Text` | JavaScript string operations the screens use: `trim`, ASCII `toLowerCase`, `endsWith`, `includes`, `join`, number rendering, `padStart(2, '0')`, and the "m:ss" clock with a parser for reading it back |
| library.dfy | `Library` | song/artist records as the screens see them, the play-all/shuffle guards and the search effect several screens share |
| reducer.dfy | `Reducer` | `initialState` and `appReducer` |
| colors.dfy | `Colors` | `COLORS` and `getThemeColors` |
| database.dfy | `Database` | the five declared tables and their constraints; `initDatabase`, `createTables`, `initializeDefaultData`, `executeSql` |
| artist_detail.dfy | `ArtistDetail` | `artist_name_string` upkeep, available songs, link/unlink handlers |
| app.dfy | `App` | the start-up check in the app's entry component |
| songs_screen.dfy | `Songs` | audio-file filter, title stripping, skipped folders, the depth-bounded scan, the insert loop, search/play/edit guards |
| queue_screen.dfy | `Queue` | queue duration format, row marking, positions and keys, the copy-in effect, clear/press calls |
| online_music.dfy | `OnlineMusic` | duration format, preview gate, blank-query dispatch, list/error update |
| edit_song_modal.dfy | `EditSong` | form loading, the saved record, reset, duration line |
| text_input_modal.dfy | `TextInput` | visibility reset, submit, cancel |
| artists_screen.dfy | `Artists` | search, create/edit/delete/long-press handlers |

Some functions these screens call are defined in files outside this model:

- the playback queue (`playSong`, `playShuffled`, `playSongFromQueue`, `clearQueue`, `playOnlineSong`);
- the catalogue queries and link functions (`getAllSongs`, `searchSongs`, `insertSong`, `updateSong`, `linkSongArtist`, `unlinkSongArtist`, `getArtistsBySong`, `getSongsByArtist`);
- the artist store (`getAllArtists`, `searchArtists`, `createArtist`, `updateArtist`, `deleteArtist`).

None of these is invented. A handler returns the call it makes as a value, such as `PlayRequest`, `CreateCall`, `UpdateCall` or `NewSong`. Whatever the call answers comes in as a parameter: an `accepted`/`success`/`created` flag, or the list a reload would return.

The artist-detail screen needs a store to act on. `ArtistDetail.LibraryStore` makes these assumptions explicit:

- a link is appended at the end unless the pair is already linked;
- an unlink removes the pair;
- `getArtistsBySong` returns artists in link order;
- `getSongsByArtist` returns songs in catalogue order.

Notes on the source:

- **Dead depth guard.** `scanDirectory` recurses only when `depth < 3` (src/screens/SongsScreen.jsx:126), so its `depth > 3` guard (line 106) can only fire for a root called with a larger depth. The model keeps both guards. Folders down to three levels below the root are listed, and no folder deeper than that is. `Songs.ScanDepthBounded` proves the consequence: nothing below the files of those folders affects what is found.
- **Song columns.** The `songs` table declared in `db.js` has `artist` and `genre` columns. The screens read and write `artist_name_string` and `genre_string` through store functions that are not part of this model. `Database.SongRow` follows the declared table. `Library.Song` is the record the screens handle.
- **Foreign keys.** The declared schema says `ON DELETE CASCADE` and `UNIQUE(playlistId, songId)`. The model gives those declared semantics; see "Left out" for how this differs from a stock SQLite connection.

## Model

| member | source | states |
|---|---|---|
| Reducer.Reduce | src/store/reducer.js:13-42 | the new state equals the old one on every field the action does not write, and holds the payload in the fields it writes (one field per SET_* action, theme and layout for SET_SETTINGS, none for an unknown type) |
| Reducer.ReduceUnique | src/store/reducer.js:13-42 | those two clauses pin the result down: any state meeting them is the reducer's result |
| Reducer.UnknownActionIsIdentity | src/store/reducer.js:39-40 | an unrecognised action type returns the state unchanged |
| Reducer.ReduceIdempotent | src/store/reducer.js:13-42 | dispatching an action twice gives the same state as dispatching it once |
| Reducer.CarriesLocal | src/store/reducer.js:15-38 | whether a state carries an action's payload depends only on the fields the action writes |
| Reducer.ReduceCommutes | src/store/reducer.js:15-18 | two actions writing disjoint fields (e.g. SET_THEME and SET_LAYOUT) commute |
| Reducer.InitialStateIsEmpty | src/store/reducer.js:1-11 | initial state: theme "dark", layout "list", no current song or playlist, not playing, all four lists empty |
| Colors.ThemeColors | src/utils/colors.js:32 | "dark" gives the dark palette, "light" the light one, any other name falls back to dark |
| Colors.ThemeColorsTotal | src/utils/colors.js:32 | the result is always one of the two palettes, with exactly the twelve colour keys |
| Colors.KeyListDistinct | src/utils/colors.js:2-15 | the twelve colour key names are pairwise distinct |
| Colors.PalettesShareKeys | src/utils/colors.js:2-29 | dark and light define the same keys, twelve of them |
| Database.Keep | src/database/db.js:51-53 | deleting link rows keeps exactly the rows not selected, in order, and keeps pair uniqueness and key order |
| Database.AppendLink | src/database/db.js:46-53 | appending a new pair with a fresh larger key keeps pair uniqueness and key order |
| Database.ExecSettings | src/database/db.js:56-64 | a settings statement keeps every declared constraint; an insert of id other than 1 or of an existing row 1 is rejected and changes nothing |
| Database.ExecSongs | src/database/db.js:27-36 | song inserts respect the unique file path; a delete also drops that song's playlist links; constraints kept |
| Database.ExecPlaylists | src/database/db.js:38-44 | playlist inserts respect the unique name; a delete also drops that playlist's links; constraints kept |
| Database.ExecPlaylistSongs | src/database/db.js:46-54 | a duplicate pair or a dangling reference is rejected unchanged; constraints kept (the success side is `NewPairInserted`) |
| Database.ExecGenres | src/database/db.js:66-72 | genre inserts respect the unique name; constraints kept |
| Database.Exec | src/database/db.js:25-73 | every statement keeps the declared constraints, a rejected statement changes nothing, and only a statement on a table not yet created fails with "no such table" |
| Database.AtMostOneSettingsRow | src/database/db.js:56-57 | the CHECK on the primary key allows at most one settings row, and it is row 1 |
| Database.SecondSettingsRowRejected | src/database/db.js:56-57 | inserting a settings row other than 1, or a second row 1, fails and leaves the database as it was |
| Database.CreateTableIdempotent | src/database/db.js:27-72 | CREATE TABLE IF NOT EXISTS only records the table; running it again changes nothing |
| Database.DuplicatePairRejected | src/database/db.js:53 | a (playlist, song) pair already present cannot be inserted again |
| Database.DeletePlaylistCascades | src/database/db.js:51 | deleting a playlist removes exactly its links and leaves the songs alone |
| Database.DeleteSongCascades | src/database/db.js:52 | deleting a song removes exactly its links and leaves the playlists alone |
| Database.DuplicatePlaylistNameRejected | src/database/db.js:40 | inserting a playlist whose name is taken fails with a unique violation and changes nothing |
| Database.DuplicateGenreNameRejected | src/database/db.js:68 | inserting a genre whose name is taken fails with a unique violation and changes nothing |
| Database.DuplicatePathRejected | src/database/db.js:33 | inserting a song whose file path is taken fails with a unique violation and changes nothing |
| Database.FreshPathInserted | src/database/db.js:27-36 | a song with no path or an unused one is inserted under the next id, and that row is the only change |
| Database.FreshPlaylistNameInserted | src/database/db.js:38-44 | a playlist with an unused name is inserted under the next id, and that row is the only change |
| Database.FreshGenreNameInserted | src/database/db.js:66-72 | a genre with an unused name is inserted under the next id, and that row is the only change |
| Database.NewPairInserted | src/database/db.js:46-53 | a new pair whose playlist and song both exist is appended with the next key, and that row is the only change |
| Database.DanglingPairRejected | src/database/db.js:51-52 | a pair naming a missing playlist or song fails and changes nothing |
| Database.FirstSettingsRowInserted | src/database/db.js:56-63 | row 1 goes into an empty settings table with the given theme and layout, playback time 0 and no current song or playlist |
| Database.FirstTablesStep | src/database/db.js:75-78 | each CREATE statement adds its own table to those before it |
| Database.DefaultsMatchInitialState | src/database/db.js:93-96 | the seeded theme and layout are the reducer's initial ones |
| Database.CreatedCount | src/database/db.js:75-78 | the number of CREATE statements that run before a failure is at most five |
| Database.FirstTables | src/database/db.js:26-73 | all five declared tables when every statement runs |
| Database.FirstTablesExactly | src/database/db.js:26-73 | a table is among those of the first n statements exactly when one of those statements creates it |
| Database.Seeded | src/database/db.js:89-97 | row 1 is present after seeding; an existing row is kept as it is, an absent one gets dark/list |
| Database.SeededIdempotent | src/database/db.js:86-98 | seeding twice is seeding once |
| App.StartupLogReportsFailureAsSuccess | App.jsx:13-18 | as written, a start-up that fails is logged as a success |
| App.StartupLogAsWritten | App.jsx:13-18 | the check as written tests the returned promise, which is truthy, so it logs success whatever the start-up did |
| App.StartupLogFor | App.jsx:13-18 | the intended check logs success exactly when start-up succeeded |
| Database.Connection.constructor | src/database/db.js:7 | the handle starts out null |
| Database.Connection.InitDatabase | src/database/db.js:9-23 | open, then create, then seed; an open or create failure is passed on, and the database then holds the tables created before it; seeding runs only after all five tables exist; nothing but `created` and the settings table changes |
| Database.Connection.CreateTables | src/database/db.js:25-84 | runs the five statements in order; the first failure stops the loop and is passed on; the tables created are those before the failure |
| Database.Connection.InitializeDefaultData | src/database/db.js:86-102 | inserts row 1 (dark, list) only when the select finds none; a failure is swallowed and leaves the database unchanged |
| Database.Connection.ExecuteSql | src/database/db.js:106-117 | a null handle fails with "Database not initialized" and changes nothing; otherwise the statement's own result and new contents |
| Library.PlayAll | src/screens/ArtistDetailScreen.jsx:136-140 | nothing is played for an empty list; otherwise the first song with the whole list as context (same code in src/screens/SongsScreen.jsx:194-198) |
| Library.Shuffle | src/screens/ArtistDetailScreen.jsx:142-146 | nothing for an empty list; otherwise the whole list goes to the shuffler (same code in src/screens/SongsScreen.jsx:200-204) |
| Library.Shown | src/screens/SongsScreen.jsx:44-51 | a blank query (after trim) shows the whole list, any other the search results |
| Text.Trim | src/components/TextInputModal.jsx:32 | the result neither starts nor ends with white space |
| Text.TrimSurroundedBySpace | src/components/TextInputModal.jsx:32 | the trimmed text occurs in the input with only white space before and after it |
| Text.NonBlankTrimmed | src/components/TextInputModal.jsx:32-33 | nothing for blank text; otherwise the trimmed text, which is non-empty |
| Text.ClockRoundTrip | src/screens/OnlineMusicScreen.jsx:148-152 | the "m:ss" string reads back as minutes and seconds below 60 with minutes × 60 + seconds equal to the input |
| ArtistDetail.ArtistsBySong | src/screens/ArtistDetailScreen.jsx:90 | exactly the known artists of that song's links, in link order; never more artists than links |
| ArtistDetail.ArtistsBySongAppend | src/screens/ArtistDetailScreen.jsx:90 | the artists of a song over appended links are the artists over each part, in order |
| ArtistDetail.Names | src/screens/ArtistDetailScreen.jsx:93-94 | the names of the artists, position by position |
| ArtistDetail.NoArtistsGivesEmptyString | src/screens/ArtistDetailScreen.jsx:93-95 | a song with no links gets the empty string |
| ArtistDetail.Linked | src/screens/ArtistDetailScreen.jsx:72 | after a link exactly the old links and the pair are present: the old list is kept as a prefix and at most the pair is added |
| ArtistDetail.Unlinked | src/screens/ArtistDetailScreen.jsx:114 | after an unlink exactly the other links remain |
| ArtistDetail.LinkAppendsName | src/screens/ArtistDetailScreen.jsx:88-98 | linking a new artist appends its name to the song's string, after " & " when there were names already |
| ArtistDetail.OtherSongsUnaffected | src/screens/ArtistDetailScreen.jsx:88-98 | linking or unlinking one song leaves every other song's artists as they were |
| ArtistDetail.UnlinkOther | src/screens/ArtistDetailScreen.jsx:114-118 | unlinking one song leaves every other song's artists as they were |
| ArtistDetail.UnlinkUndoesLink | src/screens/ArtistDetailScreen.jsx:114-118 | unlinking a pair just linked restores the previous links |
| ArtistDetail.UnlinkedAbsent | src/screens/ArtistDetailScreen.jsx:114 | unlinking a pair that is not linked changes nothing |
| ArtistDetail.UnlinkedAppend | src/screens/ArtistDetailScreen.jsx:114 | unlinking works piece by piece over appended links |
| ArtistDetail.LinkTwoThenRemoveScenario | src/screens/ArtistDetailScreen.jsx:412-427 | link A gives "A", then link B gives "A & B", then unlink B gives "A" |
| ArtistDetail.SetArtistString | src/screens/ArtistDetailScreen.jsx:98 | only `artistNameString` of the songs with that id changes; every other song and field stays |
| ArtistDetail.Ids | src/screens/ArtistDetailScreen.jsx:51 | the ids of the artist's songs, position by position |
| ArtistDetail.AvailableSongs | src/screens/ArtistDetailScreen.jsx:46-62 | an item is listed exactly when some catalogue song with that id and title is not among the artist's songs |
| ArtistDetail.AvailableSongsAppend | src/screens/ArtistDetailScreen.jsx:54-59 | the filter keeps catalogue order (it distributes over concatenation) |
| ArtistDetail.SongsByArtist | src/screens/ArtistDetailScreen.jsx:41-44 | exactly the catalogue songs linked to the artist |
| ArtistDetail.LibraryStore.constructor | src/screens/ArtistDetailScreen.jsx:18-25 | the store holds the given songs, artists and links |
| ArtistDetail.LibraryStore.LinkSongArtist | src/screens/ArtistDetailScreen.jsx:72 | on success the pair is linked, otherwise nothing changes; songs and artists never change |
| ArtistDetail.LibraryStore.UnlinkSongArtist | src/screens/ArtistDetailScreen.jsx:114 | on success the pair is unlinked, otherwise nothing changes |
| ArtistDetail.LibraryStore.UpdateArtistString | src/screens/ArtistDetailScreen.jsx:98 | writes the one field of that song; links and artists unchanged |
| ArtistDetail.ArtistDetailScreen.constructor | src/screens/ArtistDetailScreen.jsx:33-35 | no songs, modal closed, nothing available |
| ArtistDetail.ArtistDetailScreen.LoadSongs | src/screens/ArtistDetailScreen.jsx:41-44 | the screen's songs are the artist's linked songs |
| ArtistDetail.ArtistDetailScreen.HandleAddSongs | src/screens/ArtistDetailScreen.jsx:65-68 | available songs computed from the catalogue and the current songs, then the modal opens |
| ArtistDetail.ArtistDetailScreen.UpdateSongArtistString | src/screens/ArtistDetailScreen.jsx:88-101 | the song's string becomes its linked artists' names joined with " & "; nothing else changes |
| ArtistDetail.ArtistDetailScreen.HandleSelectSongs | src/screens/ArtistDetailScreen.jsx:70-85 | on success: pair linked, that song's string recomputed, list reloaded; on failure no song, link or list changes; the modal closes either way |
| ArtistDetail.ArtistDetailScreen.HandleRemoveSong | src/screens/ArtistDetailScreen.jsx:113-125 | on success: pair unlinked, string recomputed, list reloaded; on failure nothing changes |
| Songs.ExtensionOfSound | src/screens/SongsScreen.jsx:117-123 | the extension found is one of the five and ends the lower-cased name; when none is found, the name ends with none of them |
| Songs.AudioFileIffExtension | src/screens/SongsScreen.jsx:115-124 | a file is collected exactly when its lower-cased name ends with .mp3, .m4a, .wav, .flac or .aac |
| Songs.TitleStripsExtension | src/screens/SongsScreen.jsx:162 | the title is a prefix of the name, shorter exactly for audio files, and what was cut is one audio extension in some letter case |
| Songs.ExtensionOfSuffix | src/screens/SongsScreen.jsx:162 | a name ends with at most one of the five extensions |
| Songs.StripAppended | src/screens/SongsScreen.jsx:162 | stripping `title + ext` gives `title` for any letter case of an audio extension |
| Songs.OnlyLastExtension | src/screens/SongsScreen.jsx:162 | "a.mp3.mp3" becomes "a.mp3": one extension only |
| Songs.SkipIffSkipWord | src/screens/SongsScreen.jsx:128-131 | a folder is skipped exactly when its name contains one of the five skip words |
| Songs.OneLetterNotSkipped | src/screens/SongsScreen.jsx:128-131 | a one-letter folder name other than "." is not skipped |
| Songs.DottedFoldersSkipped | src/screens/SongsScreen.jsx:128-131 | any folder name with a dot, hidden ones included, is skipped |
| Songs.ScanFindsOnlyAudio | src/screens/SongsScreen.jsx:114-125 | everything the walk collects is a music file (completeness is `ScanFindsReached`) |
| Songs.ScanFromFindsOnlyAudio | src/screens/SongsScreen.jsx:114-135 | the same, from any position of a folder's listing |
| Songs.Prune | src/screens/SongsScreen.jsx:126 | cutting a tree below a level keeps files and the shape of the levels kept |
| Songs.ScanDepthBounded | src/screens/SongsScreen.jsx:106-133 | no folder more than three levels below the root is listed: cutting every folder below that level away finds the same files |
| Songs.ScanFromDepthBounded | src/screens/SongsScreen.jsx:126-133 | the same, from any position of a folder's listing |
| Songs.ScanFindsReached | src/screens/SongsScreen.jsx:105-135 | a file is found exactly when it is a music file listed in a readable folder the walk enters: the root, or a sub-folder that is not skipped, at most three levels down |
| Songs.ScanFromFindsReached | src/screens/SongsScreen.jsx:114-135 | the same, from any position of a folder's listing |
| Songs.ListedAudioFound | src/screens/SongsScreen.jsx:114-125 | every music file listed in a folder being walked is found |
| Songs.NestedAudioFound | src/screens/SongsScreen.jsx:126-134 | whatever the walk finds below an entered sub-folder is found in its parent too |
| Songs.SoleFolderScan | src/screens/SongsScreen.jsx:126-134 | a folder holding one entered sub-folder yields what that sub-folder yields |
| Songs.DeepestLevelFound | src/screens/SongsScreen.jsx:105-135 | a music file in root/a/b/c, three levels down, is found, and it is the only file found |
| Songs.Scanner.constructor | src/screens/SongsScreen.jsx:102 | `foundFiles` starts empty |
| Songs.Scanner.ScanDirectory | src/screens/SongsScreen.jsx:105-140 | the recursive walk with its loop appends exactly the files the scan specification finds, in order |
| Songs.NewSongFor | src/screens/SongsScreen.jsx:162-168 | the record for one file: its stripped title and path, duration 0, "Unknown Artist", empty genre |
| Songs.CountAccepted | src/screens/SongsScreen.jsx:170-171 | the count is at most the number of files, and equals it exactly when every insert succeeded |
| Songs.InsertFound | src/screens/SongsScreen.jsx:158-175 | one insert per found file, in order, with the stripped title, the path, duration 0, "Unknown Artist", empty genre; the count is the number of truthy ids and at most the number of files |
| Songs.EditTitle | src/screens/SongsScreen.jsx:303-305 | blank text updates nothing; otherwise that song's title is updated to the trimmed, non-empty text |
| Songs.SongsScreen.constructor | src/screens/SongsScreen.jsx:35-38 | empty lists and query, not scanning |
| Songs.SongsScreen.LoadSongs | src/screens/SongsScreen.jsx:53-57 | both lists become the catalogue |
| Songs.SongsScreen.ApplySearch | src/screens/SongsScreen.jsx:44-51 | the shown list follows the search rule |
| Songs.SongsScreen.ScanMusic | src/screens/SongsScreen.jsx:80-188 | no permission: nothing changes; no files: nothing inserted; otherwise one insert per found file, the records being those of the files the walk finds, with the found and inserted counts and a reload; scanning ends false |
| Queue.FormatDuration | src/screens/QueueScreen.jsx:106-111 | "--:--" for 0; otherwise an "m:ss" string whose seconds are below 60 and whose total is the input |
| Queue.PlaceholderIsNotAClock | src/screens/QueueScreen.jsx:107 | no positive duration formats as "--:--" |
| Queue.RowKeyInjective | src/screens/QueueScreen.jsx:174 | equal keys mean equal id and equal position |
| Queue.Rows | src/screens/QueueScreen.jsx:43-104 | one row per entry; the playing marker exactly on the playing index, position index+1 elsewhere; "Unknown Title"/"Unknown Artist" for missing text |
| Queue.RowKeysDistinct | src/screens/QueueScreen.jsx:174 | all row keys differ, even when a song is queued twice |
| Queue.AtMostOnePlaying | src/screens/QueueScreen.jsx:44 | at most one row is marked as playing |
| Queue.ClearQueueCalls | src/screens/QueueScreen.jsx:36-41 | clear then close when `clearQueue` exists; no call otherwise |
| Queue.SongPressCalls | src/screens/QueueScreen.jsx:27-34 | jump to the pressed entry when possible; never closes the modal |
| Queue.QueueView.constructor | src/screens/QueueScreen.jsx:16-17 | empty queue, playing index -1 |
| Queue.QueueView.Refresh | src/screens/QueueScreen.jsx:19-25 | while visible: the current queue or empty, the current index or 0; otherwise unchanged |
| Queue.QueueView.CountLabel | src/screens/QueueScreen.jsx:119-121 | the queue length with "song" exactly for one entry, "songs" otherwise |
| OnlineMusic.FormatDuration | src/screens/OnlineMusicScreen.jsx:148-152 | an "m:ss" string for every duration, zero included, reading back as the input |
| OnlineMusic.ZeroDuration | src/screens/OnlineMusicScreen.jsx:148-152 | zero shows as "0:00", unlike the queue's "--:--" |
| OnlineMusic.AgreesWithQueueFormat | src/screens/OnlineMusicScreen.jsx:148-152 | for positive durations the two screens' formats agree |
| OnlineMusic.Dispatch | src/screens/OnlineMusicScreen.jsx:57-61 | a blank query loads the hot songs; any other searches for the query as typed |
| OnlineMusic.ErrorFor | src/screens/OnlineMusicScreen.jsx:48-79 | each request has its own non-empty failure message |
| OnlineMusic.HandleSongPress | src/screens/OnlineMusicScreen.jsx:95-108 | only a song with a preview reaches `playOnlineSong`; a song without one always gets the no-preview notice |
| OnlineMusic.OnlineMusicScreen.constructor | src/screens/OnlineMusicScreen.jsx:25-28 | empty list and query, not loading, no error |
| OnlineMusic.OnlineMusicScreen.HandleSearchChange | src/screens/OnlineMusicScreen.jsx:90-93 | the box follows the text and the scheduled request is its dispatch |
| OnlineMusic.OnlineMusicScreen.Begin | src/screens/OnlineMusicScreen.jsx:36-37 | loading on, message cleared |
| OnlineMusic.OnlineMusicScreen.Finish | src/screens/OnlineMusicScreen.jsx:72-81 | the list is replaced only by a data array; a thrown request keeps the list and sets its message; loading ends off |
| EditSong.SavedSong | src/components/EditSongModal.jsx:30-44 | nothing for a blank title; otherwise every field kept except title (trimmed), artist (trimmed, or "Unknown Artist") and album (trimmed); `artistNameString` unchanged |
| EditSong.DurationLine | src/components/EditSongModal.jsx:159-171 | shown exactly for a positive duration, as a clock reading back to it |
| EditSong.EditSongForm.constructor | src/components/EditSongModal.jsx:18-20 | three empty fields |
| EditSong.EditSongForm.OnSongChange | src/components/EditSongModal.jsx:22-28 | a song fills title, artist string or "Unknown Artist", album; no song leaves the form |
| EditSong.EditSongForm.Reset | src/components/EditSongModal.jsx:51-55 | all three fields empty |
| EditSong.EditSongForm.Save | src/components/EditSongModal.jsx:30-44 | the saved record is `SavedSong` of the form; a blank title leaves the form untouched, a save empties it |
| EditSong.EditSongForm.Cancel | src/components/EditSongModal.jsx:46-49 | all three fields empty |
| TextInput.TextInputModal.constructor | src/components/TextInputModal.jsx:23 | the box starts at the default value |
| TextInput.TextInputModal.OnVisibilityChange | src/components/TextInputModal.jsx:25-29 | becoming visible resets the box to the default |
| TextInput.TextInputModal.Submit | src/components/TextInputModal.jsx:31-36 | blank text submits nothing and stays; otherwise the trimmed text is submitted and the box empties |
| TextInput.TextInputModal.Cancel | src/components/TextInputModal.jsx:38-41 | the box empties |
| Artists.ArtistsScreen.constructor | src/screens/ArtistsScreen.jsx:30-36 | empty lists and query, both modals closed, no selection |
| Artists.ArtistsScreen.LoadArtists | src/screens/ArtistsScreen.jsx:52-56 | both lists become the stored artists |
| Artists.ArtistsScreen.ApplySearch | src/screens/ArtistsScreen.jsx:43-50 | a blank query shows all artists, any other the search results |
| Artists.ArtistsScreen.HandleCreateArtist | src/screens/ArtistsScreen.jsx:63-79 | blank name: no call, modal stays; otherwise the trimmed name is created, the list reloads only on a truthy id, the modal closes |
| Artists.ArtistsScreen.HandleEditArtist | src/screens/ArtistsScreen.jsx:82-103 | blank name or no selection: nothing; otherwise update with id, trimmed name and image, reload only on success, close and deselect |
| Artists.ArtistsScreen.HandleDeleteArtist | src/screens/ArtistsScreen.jsx:115-123 | delete by id; reload only on success |
| Artists.ArtistsScreen.LongPressEdit | src/screens/ArtistsScreen.jsx:133-137 | the artist becomes selected and the edit modal opens |

## Left out

- Rendering, styles, navigation and `Alert` dialogs are not modelled. Only the handlers' decisions are. A confirmation dialog's "Remove"/"Delete" is modelled as its `onPress`.
- The playback queue and the catalogue, link and artist-store functions are not part of this model. Their answers are parameters, and the calls made to them are returned as values.
- ArtistDetail.LibraryStore: link order, the artist order of `getArtistsBySong` and the song order of `getSongsByArtist` are assumptions. The store keeps songs as a sequence rather than a map, because "available songs" depends on catalogue order.
- Database.Exec: SQLite itself is replaced by a model that runs a statement whole or rejects it whole. The model leaves out column defaults, timestamps, `NOT NULL` on text that is always present, and SQL text and parameters.
- Database.ExecPlaylistSongs: the model enforces the declared foreign keys and cascades. A stock SQLite connection ignores foreign keys unless `PRAGMA foreign_keys = ON` is issued, and `db.js` never issues it.
- Database.Connection.InitDatabase: `async`/`await` is modelled as a sequence of steps. Which step fails, if any, is the `fault` parameter. The `db` handle returned through the promise is not modelled.
- Songs.SongsScreen.ScanMusic: the permission request and the file system are parameters (`hasPermission`, an `Entry` tree). The list of roots has one live entry, modelled as one root. The outer catch for unexpected errors, and the console and alert text, are not modelled.
- The songs screen's delete, add-to-playlist and add-to-genre menu actions only forward to store functions that are not part of this model. The same holds for the list screens' `handleSongPress`, which passes the tapped song and the shown list. None of these is modelled.
- OnlineMusic: the HTTP requests, JSON decoding and the two-second debounce are not modelled. A request's result is a `Response` value, and the start and end of a request are separate methods.
- Text.IsSpace: it covers the ASCII white space, no-break space, BOM and the two line separators. It leaves out the other Unicode space separators that JavaScript's `trim` also removes.
- Text.ToLower: ASCII letters only. JavaScript's full Unicode lower-casing is not modelled.
- Queue.FormatDuration: durations are natural numbers of seconds. Negative or fractional durations and `Math.floor` on fractions are not modelled. The same holds for the other duration formats.
- Queue.QueueView.Refresh: `currentIndex || 0` is modelled for a missing or integer index. A `NaN` index is not modelled.
- Colors.ThemeColors: theme names that hit inherited object properties are not modelled, as `COLORS[theme]` on a plain object would find those.
- React effect scheduling and batching are not modelled: an effect is a method the caller runs after the state it depends on changes.

## Findings

| source | as written | input that shows it | evidently intended | confidence | as-written member | corrected member |
|---|---|---|---|---|---|---|
| App.jsx:13-18 | `initDatabase()` is called without `await`, and its returned promise, which is always truthy, serves as the success flag | a start-up whose database fails to open (status `Failure(IoError)`) is logged as a success | await the start-up and log success only if it succeeded | high; not executed | App.StartupLogReportsFailureAsSuccess | App.StartupLogFor |
