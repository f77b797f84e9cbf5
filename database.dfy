/**
 * The storage layer: the five declared tables with the constraints their
 * CREATE statements declare, and the module-level connection handle with
 * its start-up sequence (open, create the tables, seed the settings row)
 * and the null-handle guard of `executeSql`.
 *
 * The SQLite engine itself is a black box; `Exec` is the model of what it
 * does with one statement on these tables: it runs the statement whole or
 * rejects it whole, and it never lets a declared constraint break.
 */
module Database {
  import opened Text
  import Reducer

  datatype Table = Songs | Playlists | PlaylistSongs | Settings | Genres

  /** The tables in the order the CREATE statements run. */
  const CreateOrder: seq<Table> := [Songs, Playlists, PlaylistSongs, Settings, Genres]

  const AllTables: set<Table> := {Songs, Playlists, PlaylistSongs, Settings, Genres}

  datatype SongRow = SongRow(
    title: string, artist: string, genre: string, duration: int, filePath: Option<string>, albumArt: string)

  datatype PlaylistRow = PlaylistRow(name: string, description: string, coverImage: string)

  /** A `playlist_songs` row; `id` is its AUTOINCREMENT key. */
  datatype LinkRow = LinkRow(id: nat, playlistId: nat, songId: nat)

  datatype SettingsRow = SettingsRow(
    theme: string, layout: string, currentSongId: Option<int>, currentPlaylistId: Option<int>,
    lastPlaybackTime: int)

  datatype GenreRow = GenreRow(name: string, icon: string, color: string)

  /** The contents of the database file. Each `next…` field is the next
      AUTOINCREMENT key of its table. */
  datatype Db = Db(
    created: set<Table>,
    songs: map<nat, SongRow>,
    playlists: map<nat, PlaylistRow>,
    playlistSongs: seq<LinkRow>,
    settings: map<int, SettingsRow>,
    genres: map<nat, GenreRow>,
    nextSong: nat,
    nextPlaylist: nat,
    nextLink: nat,
    nextGenre: nat)

  const EmptyDb: Db := Db({}, map[], map[], [], map[], map[], 1, 1, 1, 1)

  /** `filePath TEXT UNIQUE` (NULLs do not collide). */
  predicate UniquePaths(songs: map<nat, SongRow>) {
    forall a, b ::
      a in songs && b in songs && songs[a].filePath.Some? && songs[a].filePath == songs[b].filePath ==> a == b
  }

  /** `playlists.name TEXT NOT NULL UNIQUE`. */
  predicate UniquePlaylistNames(playlists: map<nat, PlaylistRow>) {
    forall a, b :: a in playlists && b in playlists && playlists[a].name == playlists[b].name ==> a == b
  }

  /** `genres.name TEXT NOT NULL UNIQUE`. */
  predicate UniqueGenreNames(genres: map<nat, GenreRow>) {
    forall a, b :: a in genres && b in genres && genres[a].name == genres[b].name ==> a == b
  }

  predicate SamePair(a: LinkRow, b: LinkRow) {
    a.playlistId == b.playlistId && a.songId == b.songId
  }

  /** `UNIQUE(playlistId, songId)`. */
  predicate PairsDistinct(links: seq<LinkRow>) {
    links == [] ||
    ((forall l :: l in links[1..] ==> !SamePair(links[0], l)) && PairsDistinct(links[1..]))
  }

  /** Rows are kept in the order of their AUTOINCREMENT keys, i.e. by add time. */
  predicate IdsIncreasing(links: seq<LinkRow>) {
    links == [] ||
    ((forall l :: l in links[1..] ==> links[0].id < l.id) && IdsIncreasing(links[1..]))
  }

  /** `id INTEGER PRIMARY KEY CHECK (id = 1)`. */
  predicate SingletonSettings(settings: map<int, SettingsRow>) {
    forall k :: k in settings ==> k == 1
  }

  /** Every constraint the CREATE statements declare, and rows only in
      tables that exist. */
  predicate Wellformed(db: Db) {
    && (db.songs != map[] ==> Songs in db.created)
    && (db.playlists != map[] ==> Playlists in db.created)
    && (db.playlistSongs != [] ==> PlaylistSongs in db.created)
    && (db.settings != map[] ==> Settings in db.created)
    && (db.genres != map[] ==> Genres in db.created)
    && (forall k :: k in db.songs ==> k < db.nextSong)
    && (forall k :: k in db.playlists ==> k < db.nextPlaylist)
    && (forall k :: k in db.genres ==> k < db.nextGenre)
    && (forall l :: l in db.playlistSongs ==>
          l.id < db.nextLink && l.playlistId in db.playlists && l.songId in db.songs)
    && UniquePaths(db.songs)
    && UniquePlaylistNames(db.playlists)
    && UniqueGenreNames(db.genres)
    && PairsDistinct(db.playlistSongs)
    && IdsIncreasing(db.playlistSongs)
    && SingletonSettings(db.settings)
  }

  /** The statements the model's engine runs. */
  datatype Statement =
    | CreateTable(table: Table)                // CREATE TABLE IF NOT EXISTS
    | SelectSettings                           // SELECT * FROM settings WHERE id = 1
    | InsertSettings(id: int, theme: string, layout: string)
    | InsertSong(song: SongRow)
    | DeleteSong(songId: nat)
    | InsertPlaylist(playlist: PlaylistRow)
    | DeletePlaylist(playlistId: nat)
    | InsertPlaylistSong(playlistId: nat, songId: nat)
    | DeletePlaylistSong(playlistId: nat, songId: nat)
    | InsertGenre(genre: GenreRow)
    | DeleteGenre(genreId: nat)

  datatype SqlError =
    | NotInitialized
    | NoSuchTable(table: Table)
    | UniqueViolation
    | CheckViolation
    | PrimaryKeyViolation
    | ForeignKeyViolation
    | IoError

  /** The message an error carries. */
  function ErrorMessage(e: SqlError): string {
    match e
    case NotInitialized => "Database not initialized"
    case NoSuchTable(_) => "no such table"
    case UniqueViolation => "UNIQUE constraint failed"
    case CheckViolation => "CHECK constraint failed"
    case PrimaryKeyViolation => "UNIQUE constraint failed: settings.id"
    case ForeignKeyViolation => "FOREIGN KEY constraint failed"
    case IoError => "disk I/O error"
  }

  datatype Outcome = Rows(count: nat) | Inserted(id: int) | Changed(count: nat) | Failed(error: SqlError)

  datatype ExecResult = ExecResult(db: Db, outcome: Outcome)

  /** The table a statement needs. */
  function TableOf(stmt: Statement): Table {
    match stmt
    case CreateTable(t) => t
    case SelectSettings => Settings
    case InsertSettings(_, _, _) => Settings
    case InsertSong(_) => Songs
    case DeleteSong(_) => Songs
    case InsertPlaylist(_) => Playlists
    case DeletePlaylist(_) => Playlists
    case InsertPlaylistSong(_, _) => PlaylistSongs
    case DeletePlaylistSong(_, _) => PlaylistSongs
    case InsertGenre(_) => Genres
    case DeleteGenre(_) => Genres
  }

  /** The rows of `links` that `drop` does not select, in their order. */
  function Keep(links: seq<LinkRow>, drop: LinkRow -> bool): (r: seq<LinkRow>)
    ensures forall l :: l in r <==> l in links && !drop(l)
    ensures |r| <= |links|
    ensures PairsDistinct(links) ==> PairsDistinct(r)
    ensures IdsIncreasing(links) ==> IdsIncreasing(r)
  {
    if links == [] then []
    else
      var rest := Keep(links[1..], drop);
      if drop(links[0]) then rest
      else
        var r := [links[0]] + rest;
        assert r[1..] == rest;
        r
  }

  lemma {:induction false} AppendLink(links: seq<LinkRow>, x: LinkRow)
    requires PairsDistinct(links) && IdsIncreasing(links)
    requires forall l :: l in links ==> !SamePair(l, x) && l.id < x.id
    ensures PairsDistinct(links + [x]) && IdsIncreasing(links + [x])
  {
    if links != [] {
      assert (links + [x])[1..] == links[1..] + [x];
      AppendLink(links[1..], x);
    }
  }

  function Fail(db: Db, e: SqlError): ExecResult {
    ExecResult(db, Failed(e))
  }

  /** The contract every statement keeps: the constraints hold after it,
      and a rejected statement changes nothing. */
  predicate Keeps(db: Db, r: ExecResult) {
    Wellformed(r.db) && (r.outcome.Failed? ==> r.db == db)
  }

  function ExecSettings(db: Db, stmt: Statement): (r: ExecResult)
    requires Wellformed(db) && Settings in db.created
    requires stmt.SelectSettings? || stmt.InsertSettings?
    ensures Keeps(db, r)
  {
    match stmt
    case SelectSettings =>
      ExecResult(db, Rows(if 1 in db.settings then 1 else 0))
    case InsertSettings(id, theme, layout) =>
      if id != 1 then Fail(db, CheckViolation)
      else if id in db.settings then Fail(db, PrimaryKeyViolation)
      else ExecResult(db.(settings := db.settings[id := SettingsRow(theme, layout, None, None, 0)]), Inserted(id))
  }

  function ExecSongs(db: Db, stmt: Statement): (r: ExecResult)
    requires Wellformed(db) && Songs in db.created
    requires stmt.InsertSong? || stmt.DeleteSong?
    ensures Keeps(db, r)
  {
    match stmt
    case InsertSong(row) =>
      if row.filePath.Some? && exists k :: k in db.songs && db.songs[k].filePath == row.filePath then
        Fail(db, UniqueViolation)
      else
        ExecResult(db.(songs := db.songs[db.nextSong := row], nextSong := db.nextSong + 1), Inserted(db.nextSong))
    case DeleteSong(id) =>
      ExecResult(
        db.(songs := db.songs - {id}, playlistSongs := Keep(db.playlistSongs, (l: LinkRow) => l.songId == id)),
        Changed(if id in db.songs then 1 else 0))
  }

  function ExecPlaylists(db: Db, stmt: Statement): (r: ExecResult)
    requires Wellformed(db) && Playlists in db.created
    requires stmt.InsertPlaylist? || stmt.DeletePlaylist?
    ensures Keeps(db, r)
  {
    match stmt
    case InsertPlaylist(row) =>
      if exists k :: k in db.playlists && db.playlists[k].name == row.name then Fail(db, UniqueViolation)
      else
        ExecResult(
          db.(playlists := db.playlists[db.nextPlaylist := row], nextPlaylist := db.nextPlaylist + 1),
          Inserted(db.nextPlaylist))
    case DeletePlaylist(id) =>
      ExecResult(
        db.(playlists := db.playlists - {id}, playlistSongs := Keep(db.playlistSongs, (l: LinkRow) => l.playlistId == id)),
        Changed(if id in db.playlists then 1 else 0))
  }

  function ExecPlaylistSongs(db: Db, stmt: Statement): (r: ExecResult)
    requires Wellformed(db) && PlaylistSongs in db.created
    requires stmt.InsertPlaylistSong? || stmt.DeletePlaylistSong?
    ensures Keeps(db, r)
  {
    match stmt
    case InsertPlaylistSong(p, s) =>
      var x := LinkRow(db.nextLink, p, s);
      if exists l :: l in db.playlistSongs && SamePair(l, x) then Fail(db, UniqueViolation)
      else if p !in db.playlists || s !in db.songs then Fail(db, ForeignKeyViolation)
      else
        AppendLink(db.playlistSongs, x);
        ExecResult(db.(playlistSongs := db.playlistSongs + [x], nextLink := db.nextLink + 1), Inserted(x.id))
    case DeletePlaylistSong(p, s) =>
      var kept := Keep(db.playlistSongs, (l: LinkRow) => l.playlistId == p && l.songId == s);
      ExecResult(db.(playlistSongs := kept), Changed(|db.playlistSongs| - |kept|))
  }

  function ExecGenres(db: Db, stmt: Statement): (r: ExecResult)
    requires Wellformed(db) && Genres in db.created
    requires stmt.InsertGenre? || stmt.DeleteGenre?
    ensures Keeps(db, r)
  {
    match stmt
    case InsertGenre(row) =>
      if exists k :: k in db.genres && db.genres[k].name == row.name then Fail(db, UniqueViolation)
      else
        ExecResult(db.(genres := db.genres[db.nextGenre := row], nextGenre := db.nextGenre + 1), Inserted(db.nextGenre))
    case DeleteGenre(id) =>
      ExecResult(db.(genres := db.genres - {id}), Changed(if id in db.genres then 1 else 0))
  }

  /** One statement against the database: the new contents and the outcome.
      A statement on a table that does not exist is rejected, a rejected
      statement changes nothing, and no statement breaks a declared
      constraint. */
  function Exec(db: Db, stmt: Statement): (r: ExecResult)
    requires Wellformed(db)
    ensures Wellformed(r.db)
    ensures r.outcome.Failed? ==> r.db == db
    ensures r.outcome == Failed(NoSuchTable(TableOf(stmt))) <==> TableOf(stmt) !in db.created && !stmt.CreateTable?
  {
    if stmt.CreateTable? then ExecResult(db.(created := db.created + {stmt.table}), Changed(0))
    else if TableOf(stmt) !in db.created then Fail(db, NoSuchTable(TableOf(stmt)))
    else
      match TableOf(stmt)
      case Settings => ExecSettings(db, stmt)
      case Songs => ExecSongs(db, stmt)
      case Playlists => ExecPlaylists(db, stmt)
      case PlaylistSongs => ExecPlaylistSongs(db, stmt)
      case Genres => ExecGenres(db, stmt)
  }

  /** The CHECK and the primary key together allow one settings row at most. */
  lemma AtMostOneSettingsRow(db: Db)
    requires Wellformed(db)
    ensures |db.settings| <= 1
    ensures db.settings != map[] ==> db.settings.Keys == {1}
  {
    assert SingletonSettings(db.settings);
    assert forall k :: k in db.settings.Keys ==> k == 1;
    if 1 in db.settings {
      assert db.settings.Keys == {1};
    } else {
      assert db.settings.Keys == {};
      assert db.settings == map[];
    }
  }

  /** Inserting a settings row other than row 1, or a second row 1, is rejected. */
  lemma SecondSettingsRowRejected(db: Db, id: int, theme: string, layout: string)
    requires Wellformed(db) && Settings in db.created
    requires id != 1 || 1 in db.settings
    ensures Exec(db, InsertSettings(id, theme, layout)).outcome.Failed?
    ensures Exec(db, InsertSettings(id, theme, layout)).db == db
  {
  }

  /** CREATE TABLE IF NOT EXISTS: running it again changes nothing, and it
      never touches a row. */
  lemma CreateTableIdempotent(db: Db, t: Table)
    requires Wellformed(db)
    ensures var once := Exec(db, CreateTable(t)).db;
      Exec(once, CreateTable(t)).db == once &&
      once == db.(created := db.created + {t})
  {
  }

  /** A (playlist, song) pair is stored at most once: a second insert of the
      same pair is rejected and leaves the table as it was. */
  lemma DuplicatePairRejected(db: Db, p: nat, s: nat)
    requires Wellformed(db) && PlaylistSongs in db.created
    requires exists l :: l in db.playlistSongs && l.playlistId == p && l.songId == s
    ensures Exec(db, InsertPlaylistSong(p, s)).outcome == Failed(UniqueViolation)
    ensures Exec(db, InsertPlaylistSong(p, s)).db == db
  {
    var l :| l in db.playlistSongs && l.playlistId == p && l.songId == s;
    assert SamePair(l, LinkRow(db.nextLink, p, s));
  }

  /** Deleting a playlist removes its `playlist_songs` rows and keeps every other row. */
  lemma DeletePlaylistCascades(db: Db, id: nat)
    requires Wellformed(db) && Playlists in db.created
    ensures var after := Exec(db, DeletePlaylist(id)).db;
      id !in after.playlists &&
      (forall l :: l in after.playlistSongs <==> l in db.playlistSongs && l.playlistId != id) &&
      after.songs == db.songs
  {
  }

  /** Deleting a song removes every `playlist_songs` row that names it and
      keeps every other row. */
  lemma DeleteSongCascades(db: Db, id: nat)
    requires Wellformed(db) && Songs in db.created
    ensures var after := Exec(db, DeleteSong(id)).db;
      id !in after.songs &&
      (forall l :: l in after.playlistSongs <==> l in db.playlistSongs && l.songId != id) &&
      after.playlists == db.playlists
  {
  }

  /** A playlist or genre name that is taken, or a file path that is taken,
      cannot be inserted again. */
  lemma DuplicatePlaylistNameRejected(db: Db, pl: PlaylistRow, k: nat)
    requires Wellformed(db) && Playlists in db.created
    requires k in db.playlists && db.playlists[k].name == pl.name
    ensures Exec(db, InsertPlaylist(pl)).outcome == Failed(UniqueViolation)
    ensures Exec(db, InsertPlaylist(pl)).db == db
  {
  }

  lemma DuplicateGenreNameRejected(db: Db, g: GenreRow, k: nat)
    requires Wellformed(db) && Genres in db.created
    requires k in db.genres && db.genres[k].name == g.name
    ensures Exec(db, InsertGenre(g)).outcome == Failed(UniqueViolation)
    ensures Exec(db, InsertGenre(g)).db == db
  {
  }

  lemma DuplicatePathRejected(db: Db, s: SongRow, k: nat)
    requires Wellformed(db) && Songs in db.created
    requires s.filePath.Some? && k in db.songs && db.songs[k].filePath == s.filePath
    ensures Exec(db, InsertSong(s)).outcome == Failed(UniqueViolation)
    ensures Exec(db, InsertSong(s)).db == db
  {
  }

  /** The other half of each constraint: an insert that breaks none of them
      succeeds, takes the next AUTOINCREMENT key and adds exactly that row. */
  lemma FreshPathInserted(db: Db, s: SongRow)
    requires Wellformed(db) && Songs in db.created
    requires s.filePath.None? || forall k :: k in db.songs ==> db.songs[k].filePath != s.filePath
    ensures Exec(db, InsertSong(s)).outcome == Inserted(db.nextSong)
    ensures Exec(db, InsertSong(s)).db == db.(songs := db.songs[db.nextSong := s], nextSong := db.nextSong + 1)
  {
  }

  lemma FreshPlaylistNameInserted(db: Db, pl: PlaylistRow)
    requires Wellformed(db) && Playlists in db.created
    requires forall k :: k in db.playlists ==> db.playlists[k].name != pl.name
    ensures Exec(db, InsertPlaylist(pl)).outcome == Inserted(db.nextPlaylist)
    ensures Exec(db, InsertPlaylist(pl)).db ==
      db.(playlists := db.playlists[db.nextPlaylist := pl], nextPlaylist := db.nextPlaylist + 1)
  {
  }

  lemma FreshGenreNameInserted(db: Db, g: GenreRow)
    requires Wellformed(db) && Genres in db.created
    requires forall k :: k in db.genres ==> db.genres[k].name != g.name
    ensures Exec(db, InsertGenre(g)).outcome == Inserted(db.nextGenre)
    ensures Exec(db, InsertGenre(g)).db == db.(genres := db.genres[db.nextGenre := g], nextGenre := db.nextGenre + 1)
  {
  }

  /** A new pair whose playlist and song both exist is appended with the next key. */
  lemma NewPairInserted(db: Db, p: nat, s: nat)
    requires Wellformed(db) && PlaylistSongs in db.created
    requires p in db.playlists && s in db.songs
    requires forall l :: l in db.playlistSongs ==> !(l.playlistId == p && l.songId == s)
    ensures Exec(db, InsertPlaylistSong(p, s)).outcome == Inserted(db.nextLink)
    ensures Exec(db, InsertPlaylistSong(p, s)).db ==
      db.(playlistSongs := db.playlistSongs + [LinkRow(db.nextLink, p, s)], nextLink := db.nextLink + 1)
  {
  }

  /** A pair naming a playlist or a song that does not exist is rejected. */
  lemma DanglingPairRejected(db: Db, p: nat, s: nat)
    requires Wellformed(db) && PlaylistSongs in db.created
    requires p !in db.playlists || s !in db.songs
    ensures Exec(db, InsertPlaylistSong(p, s)).outcome.Failed?
    ensures Exec(db, InsertPlaylistSong(p, s)).db == db
  {
  }

  /** Row 1 goes in when the settings table is empty. */
  lemma FirstSettingsRowInserted(db: Db, theme: string, layout: string)
    requires Wellformed(db) && Settings in db.created && 1 !in db.settings
    ensures Exec(db, InsertSettings(1, theme, layout)).outcome == Inserted(1)
    ensures Exec(db, InsertSettings(1, theme, layout)).db ==
      db.(settings := db.settings[1 := SettingsRow(theme, layout, None, None, 0)])
  {
  }

  /** The row `initializeDefaultData` seeds. */
  const DefaultSettings: SettingsRow := SettingsRow("dark", "list", None, None, 0)

  /** The seeded settings agree with the reducer's initial theme and layout. */
  lemma DefaultsMatchInitialState()
    ensures DefaultSettings.theme == Reducer.InitialState.theme
    ensures DefaultSettings.layout == Reducer.InitialState.layout
  {
  }

  /** Where start-up fails, when it does. The engine's I/O is not modelled;
      a fault names the one step whose `await` rejects. */
  datatype Fault = NoFault | OpenFails | CreateFails(statement: nat) | SeedFails

  datatype Status = Success | Failure(error: SqlError)

  /** The number of CREATE statements that run before the fault, if any. */
  function CreatedCount(fault: Fault): (n: nat)
    ensures n <= |CreateOrder|
  {
    if fault.CreateFails? && fault.statement < |CreateOrder| then fault.statement else |CreateOrder|
  }

  /** The tables named by the first `n` CREATE statements. */
  function FirstTables(n: nat): (ts: set<Table>)
    requires n <= |CreateOrder|
    ensures n == |CreateOrder| ==> ts == AllTables
  {
    var ts := set i | 0 <= i < n :: CreateOrder[i];
    assert n == |CreateOrder| ==>
      CreateOrder[0] in ts && CreateOrder[1] in ts && CreateOrder[2] in ts &&
      CreateOrder[3] in ts && CreateOrder[4] in ts;
    ts
  }

  /** The tables created by the first `n` statements are exactly theirs. */
  lemma FirstTablesExactly(n: nat, t: Table)
    requires n <= |CreateOrder|
    ensures t in FirstTables(n) <==> exists i :: 0 <= i < n && CreateOrder[i] == t
  {
  }

  /** Each CREATE statement adds its own table to those before it. */
  lemma FirstTablesStep(i: nat)
    requires i < |CreateOrder|
    ensures FirstTables(i + 1) == FirstTables(i) + {CreateOrder[i]}
  {
  }

  /** The settings table after seeding: row 1 is added when absent, and an
      existing row is left as it is. */
  function Seeded(settings: map<int, SettingsRow>): (r: map<int, SettingsRow>)
    ensures 1 in r
    ensures 1 in settings ==> r == settings
    ensures 1 !in settings ==> r == settings[1 := DefaultSettings]
  {
    if 1 in settings then settings else settings[1 := DefaultSettings]
  }

  /** Seeding twice is seeding once. */
  lemma SeededIdempotent(settings: map<int, SettingsRow>)
    ensures Seeded(Seeded(settings)) == Seeded(settings)
  {
  }

  /** The state of `db.js`: the module-level connection handle, `None`
      while it is `null`. */
  class Connection {
    var db: Option<Db>

    ghost predicate Valid()
      reads this
    {
      db.Some? ==> Wellformed(db.value)
    }

    /** `let db = null`. */
    constructor ()
      ensures Valid() && db == None
    {
      db := None;
    }

    /** `initDatabase`: open the file, create the tables, seed the settings.
        A failure to open or to create is passed on to the caller; a failure
        while seeding is not. */
    method InitDatabase(disk: Db, fault: Fault) returns (status: Status)
      requires Valid() && Wellformed(disk)
      modifies this
      ensures Valid()
      ensures fault.OpenFails? ==> status == Failure(IoError) && db == old(db)
      ensures !fault.OpenFails? ==>
        db.Some? && db.value.created == disk.created + FirstTables(CreatedCount(fault))
      ensures status.Success? <==> !fault.OpenFails? && CreatedCount(fault) == |CreateOrder|
      ensures status.Failure? ==> status.error == IoError
      ensures !fault.OpenFails? ==>
        db.value.settings == (if status.Success? && !fault.SeedFails? then Seeded(disk.settings) else disk.settings)
      ensures !fault.OpenFails? ==>
        db.value == disk.(created := db.value.created, settings := db.value.settings)
    {
      if fault.OpenFails? {
        return Failure(IoError);
      }
      db := Some(disk);
      status := CreateTables(fault);
      if status.Failure? {
        return;
      }
      InitializeDefaultData(fault);
    }

    /** `createTables`: the five CREATE TABLE IF NOT EXISTS statements in
        order; the first failure stops the loop and is passed on. */
    method CreateTables(fault: Fault) returns (status: Status)
      requires db.Some? && Wellformed(db.value)
      modifies this
      ensures db.Some? && Wellformed(db.value)
      ensures db.value == old(db.value).(created := old(db.value).created + FirstTables(CreatedCount(fault)))
      ensures status.Success? <==> CreatedCount(fault) == |CreateOrder|
      ensures status.Failure? ==> status.error == IoError
    {
      ghost var start := db.value;
      for i := 0 to |CreateOrder|
        invariant db.Some? && Wellformed(db.value)
        invariant i <= CreatedCount(fault)
        invariant db.value == start.(created := start.created + FirstTables(i))
      {
        if fault == CreateFails(i) {
          return Failure(IoError);
        }
        var r := Exec(db.value, CreateTable(CreateOrder[i]));
        CreateTableIdempotent(db.value, CreateOrder[i]);
        FirstTablesStep(i);
        db := Some(r.db);
      }
      status := Success;
    }

    /** `initializeDefaultData`: insert the settings row when the SELECT finds
        no row 1. A failure is logged and swallowed. */
    method InitializeDefaultData(fault: Fault)
      requires db.Some? && Wellformed(db.value) && Settings in db.value.created
      modifies this
      ensures db.Some? && Wellformed(db.value)
      ensures fault.SeedFails? ==> db == old(db)
      ensures !fault.SeedFails? ==> db.value == old(db.value).(settings := Seeded(old(db.value).settings))
    {
      if fault.SeedFails? {
        return;
      }
      var found := Exec(db.value, SelectSettings);
      if found.outcome == Rows(0) {
        var inserted := Exec(db.value, InsertSettings(1, "dark", "list"));
        db := Some(inserted.db);
      }
    }

    /** `executeSql`: reject every statement while the handle is null;
        otherwise run it and pass its result or its error on. */
    method ExecuteSql(stmt: Statement) returns (outcome: Outcome)
      requires Valid()
      modifies this
      ensures Valid()
      ensures old(db).None? ==> db == None && outcome == Failed(NotInitialized)
      ensures old(db).Some? ==>
        db == Some(Exec(old(db).value, stmt).db) && outcome == Exec(old(db).value, stmt).outcome
    {
      if db.None? {
        return Failed(NotInitialized);
      }
      var r := Exec(db.value, stmt);
      db := Some(r.db);
      outcome := r.outcome;
    }
  }
}
