/**
 * The scanning side of the songs screen: which files count as music, the
 * title a file gets, which folders are skipped, the depth-bounded walk
 * over the storage tree, the loop that hands the found files to the
 * database, and the screen's search, play and edit guards.
 *
 * The file system (`RNFS.exists`, `RNFS.readDir`) and the permission
 * request are replaced by an `Entry` tree: a directory that does not
 * exist or cannot be listed is one whose `readable` flag is false.
 */
module Songs {
  import opened Text
  import opened Library

  const AudioExtensions: seq<string> := [".mp3", ".m4a", ".wav", ".flac", ".aac"]

  const SkipDirs: seq<string> := ["Android", ".", "DCIM", "Pictures", "Movies"]

  const UnknownArtist: string := "Unknown Artist"

  /** A node of the storage tree as `readDir` reports it. */
  datatype Entry =
    | File(name: string, path: string)
    | Directory(name: string, path: string, readable: bool, items: seq<Entry>)

  /** The extension a lower-cased name ends with, tried in the source's order. */
  function ExtensionOf(lower: string): Option<string> {
    if HasSuffix(lower, ".mp3") then Some(".mp3")
    else if HasSuffix(lower, ".m4a") then Some(".m4a")
    else if HasSuffix(lower, ".wav") then Some(".wav")
    else if HasSuffix(lower, ".flac") then Some(".flac")
    else if HasSuffix(lower, ".aac") then Some(".aac")
    else None
  }

  /** The extension found is one of the five and ends the name; when none
      is found, the name ends with none of them. */
  lemma ExtensionOfSound(lower: string)
    ensures ExtensionOf(lower).Some? ==>
      ExtensionOf(lower).value in AudioExtensions && HasSuffix(lower, ExtensionOf(lower).value)
    ensures ExtensionOf(lower).None? ==> forall e :: e in AudioExtensions ==> !HasSuffix(lower, e)
  {
  }

  /** A file is collected when its lower-cased name ends with one of the
      five audio extensions. */
  predicate IsAudioFile(name: string) {
    ExtensionOf(ToLower(name)).Some?
  }

  /** The test ignores letter case and accepts exactly the five extensions. */
  lemma AudioFileIffExtension(name: string)
    ensures IsAudioFile(name) <==> exists e :: e in AudioExtensions && HasSuffix(ToLower(name), e)
  {
    ExtensionOfSound(ToLower(name));
  }

  /** `name.replace(/\.(mp3|m4a|wav|flac|aac)$/i, '')`: the name with one
      trailing audio extension removed, in any letter case. */
  function TitleFromFileName(name: string): string {
    var lower := ToLower(name);
    match ExtensionOf(lower)
    case None => name
    case Some(e) =>
      ExtensionOfSound(lower);
      name[..|name| - |e|]
  }

  /** The title is a prefix of the name, shorter exactly for a music file,
      and what was cut off is one audio extension in some letter case. */
  lemma TitleStripsExtension(name: string)
    ensures HasPrefix(name, TitleFromFileName(name))
    ensures IsAudioFile(name) <==> |TitleFromFileName(name)| < |name|
    ensures IsAudioFile(name) ==> ToLower(name[|TitleFromFileName(name)|..]) in AudioExtensions
  {
    var lower := ToLower(name);
    ExtensionOfSound(lower);
    var r := TitleFromFileName(name);
    if ExtensionOf(lower).Some? {
      assert ToLower(name[|r|..]) == lower[|r|..];
    }
  }

  /** The `k`-th character from the end of a string is that of any suffix at least `k` long. */
  lemma SuffixChar(s: string, suffix: string, k: nat)
    requires HasSuffix(s, suffix) && 1 <= k <= |suffix|
    ensures s[|s| - k] == suffix[|suffix| - k]
  {
    assert s[|s| - |suffix|..][|suffix| - k] == s[|s| - k];
  }

  /** The five extensions end differently, so a name ends with at most one of them. */
  lemma ExtensionOfSuffix(lower: string, ext: string)
    requires ext in AudioExtensions && HasSuffix(lower, ext)
    ensures ExtensionOf(lower) == Some(ext)
  {
    var n := |lower|;
    SuffixChar(lower, ext, 1);
    SuffixChar(lower, ext, 3);
    if HasSuffix(lower, ".mp3") { SuffixChar(lower, ".mp3", 1); }
    if HasSuffix(lower, ".m4a") { SuffixChar(lower, ".m4a", 1); SuffixChar(lower, ".m4a", 3); }
    if HasSuffix(lower, ".wav") { SuffixChar(lower, ".wav", 1); }
    if HasSuffix(lower, ".flac") { SuffixChar(lower, ".flac", 3); }
  }

  /** Removing the extension from `title + ext` gives back `title`, whatever
      the case of `ext`. */
  lemma StripAppended(title: string, ext: string)
    requires ToLower(ext) in AudioExtensions
    ensures TitleFromFileName(title + ext) == title
  {
    var name := title + ext;
    ToLowerAppend(title, ext);
    var lower := ToLower(name);
    var le := ToLower(ext);
    assert lower[|lower| - |le|..] == le;
    ExtensionOfSuffix(lower, le);
    assert name[..|name| - |le|] == title;
  }

  /** Only the last extension goes: "a.mp3.mp3" becomes "a.mp3". */
  lemma OnlyLastExtension()
    ensures TitleFromFileName("a.mp3.mp3") == "a.mp3"
  {
    assert ToLower(".mp3") == ".mp3";
    StripAppended("a.mp3", ".mp3");
    assert "a.mp3" + ".mp3" == "a.mp3.mp3";
  }

  /** A folder is skipped when its name contains one of the skip words. */
  predicate ShouldSkipDir(name: string) {
    Contains(name, "Android") || Contains(name, ".") || Contains(name, "DCIM") ||
    Contains(name, "Pictures") || Contains(name, "Movies")
  }

  /** The skip test is exactly "contains one of the five skip words". */
  lemma SkipIffSkipWord(name: string)
    ensures ShouldSkipDir(name) <==> exists k :: k in SkipDirs && Contains(name, k)
  {
    assert forall k :: k in SkipDirs ==> k == "Android" || k == "." || k == "DCIM" || k == "Pictures" || k == "Movies";
    if ShouldSkipDir(name) {
      var k := if Contains(name, "Android") then SkipDirs[0] else if Contains(name, ".") then SkipDirs[1]
        else if Contains(name, "DCIM") then SkipDirs[2] else if Contains(name, "Pictures") then SkipDirs[3]
        else SkipDirs[4];
      assert k in SkipDirs && Contains(name, k);
    }
  }

  /** Any folder whose name has a dot anywhere, hidden folders included, is skipped. */
  lemma DottedFoldersSkipped(name: string, i: nat)
    requires i < |name| && name[i] == '.'
    ensures ShouldSkipDir(name)
  {
    assert OccursAt(name, ".", i) by { assert name[i..i + 1] == [name[i]]; }
  }

  /** The files `scanDirectory(dir.path, depth)` pushes, in the order it pushes them. */
  function ScanDir(dir: Entry, depth: nat): seq<Entry>
    decreases dir, 1
  {
    if depth > 3 || !dir.Directory? || !dir.readable then [] else ScanFrom(dir, 0, depth)
  }

  /** What the loop of `scanDirectory` pushes from the `i`-th item onward. */
  function ScanFrom(dir: Entry, i: nat, depth: nat): seq<Entry>
    requires dir.Directory? && i <= |dir.items|
    decreases dir, 0, |dir.items| - i
  {
    if i == |dir.items| then []
    else
      var item := dir.items[i];
      var here :=
        if item.File? then (if IsAudioFile(item.name) then [item] else [])
        else if depth < 3 && !ShouldSkipDir(item.name) then ScanDir(item, depth + 1)
        else [];
      here + ScanFrom(dir, i + 1, depth)
  }

  /** The walk collects music files and nothing else. */
  lemma {:induction false} ScanFindsOnlyAudio(dir: Entry, depth: nat)
    ensures forall f :: f in ScanDir(dir, depth) ==> f.File? && IsAudioFile(f.name)
    decreases dir, 1
  {
    if depth <= 3 && dir.Directory? && dir.readable {
      ScanFromFindsOnlyAudio(dir, 0, depth);
    }
  }

  lemma {:induction false} ScanFromFindsOnlyAudio(dir: Entry, i: nat, depth: nat)
    requires dir.Directory? && i <= |dir.items|
    ensures forall f :: f in ScanFrom(dir, i, depth) ==> f.File? && IsAudioFile(f.name)
    decreases dir, 0, |dir.items| - i
  {
    if i < |dir.items| {
      var item := dir.items[i];
      if item.Directory? && depth < 3 && !ShouldSkipDir(item.name) {
        ScanFindsOnlyAudio(item, depth + 1);
      }
      ScanFromFindsOnlyAudio(dir, i + 1, depth);
    }
  }

  /** A directory made unreadable: what a walk sees of a directory it never lists. */
  function Cut(e: Entry): Entry {
    if e.Directory? then e.(readable := false, items := []) else e
  }

  /** The tree with everything more than `n` levels below `e` cut away. */
  function Prune(e: Entry, n: nat): (r: Entry)
    ensures r.File? <==> e.File?
    ensures r.File? ==> r == e
    ensures r.Directory? ==> r.name == e.name && r.readable == e.readable && |r.items| == |e.items|
    decreases e
  {
    match e
    case File(_, _) => e
    case Directory(name, path, readable, items) =>
      Directory(name, path, readable,
        seq(|items|, i requires 0 <= i < |items| => if n == 0 then Cut(items[i]) else Prune(items[i], n - 1)))
  }

  /** The walk never lists a directory more than three levels below the
      root: cutting the tree off there changes nothing that is found. */
  lemma {:induction false} ScanDepthBounded(dir: Entry, depth: nat)
    requires depth <= 3
    ensures ScanDir(Prune(dir, 3 - depth), depth) == ScanDir(dir, depth)
    decreases dir, 1
  {
    if dir.Directory? && dir.readable {
      ScanFromDepthBounded(dir, 0, depth);
    }
  }

  lemma {:induction false} ScanFromDepthBounded(dir: Entry, i: nat, depth: nat)
    requires depth <= 3 && dir.Directory? && i <= |dir.items|
    ensures ScanFrom(Prune(dir, 3 - depth), i, depth) == ScanFrom(dir, i, depth)
    decreases dir, 0, |dir.items| - i
  {
    if i < |dir.items| {
      var item := dir.items[i];
      var p := Prune(dir, 3 - depth);
      if depth < 3 {
        assert p.items[i] == Prune(item, 3 - (depth + 1));
        if item.Directory? {
          ScanDepthBounded(item, depth + 1);
        }
      } else {
        assert p.items[i] == Cut(item);
      }
      ScanFromDepthBounded(dir, i + 1, depth);
    }
  }

  /** Where the walk should find `f`, independently of its order: `f` is a
      music file listed in `dir` (readable, at most three levels down), or
      lies below one of its sub-folders that is not skipped and is entered. */
  predicate Reached(dir: Entry, depth: nat, f: Entry)
    decreases dir, 2
  {
    depth <= 3 && dir.Directory? && dir.readable && ReachedFrom(dir, 0, depth, f)
  }

  /** `f` is reached through one of the items of `dir` from the `i`-th on. */
  predicate ReachedFrom(dir: Entry, i: nat, depth: nat, f: Entry)
    requires dir.Directory? && i <= |dir.items|
    decreases dir, 1, |dir.items| - i
  {
    i < |dir.items| && (ReachedAt(dir, i, depth, f) || ReachedFrom(dir, i + 1, depth, f))
  }

  /** `f` is the `k`-th item of `dir`, a music file, or lies below it. */
  predicate ReachedAt(dir: Entry, k: nat, depth: nat, f: Entry)
    requires dir.Directory? && k < |dir.items|
    decreases dir, 0
  {
    var item := dir.items[k];
    if item.File? then item == f && IsAudioFile(item.name)
    else depth < 3 && !ShouldSkipDir(item.name) && Reached(item, depth + 1, f)
  }

  /** The walk finds exactly the files the tree makes reachable: it is
      sound (nothing else is found) and complete (nothing reachable is
      missed, however deep in the allowed levels). */
  lemma {:induction false} ScanFindsReached(dir: Entry, depth: nat, f: Entry)
    ensures f in ScanDir(dir, depth) <==> Reached(dir, depth, f)
    decreases dir, 1
  {
    if depth <= 3 && dir.Directory? && dir.readable {
      ScanFromFindsReached(dir, 0, depth, f);
    }
  }

  lemma {:induction false} ScanFromFindsReached(dir: Entry, i: nat, depth: nat, f: Entry)
    requires dir.Directory? && i <= |dir.items|
    ensures f in ScanFrom(dir, i, depth) <==> ReachedFrom(dir, i, depth, f)
    decreases dir, 0, |dir.items| - i
  {
    if i < |dir.items| {
      var item := dir.items[i];
      var here :=
        if item.File? then (if IsAudioFile(item.name) then [item] else [])
        else if depth < 3 && !ShouldSkipDir(item.name) then ScanDir(item, depth + 1)
        else [];
      assert ScanFrom(dir, i, depth) == here + ScanFrom(dir, i + 1, depth);
      if item.Directory? && depth < 3 && !ShouldSkipDir(item.name) {
        ScanFindsReached(item, depth + 1, f);
      }
      assert f in here <==> ReachedAt(dir, i, depth, f);
      ScanFromFindsReached(dir, i + 1, depth, f);
    }
  }

  /** Every music file listed directly in a readable folder the walk
      enters is found. */
  lemma {:induction false} ListedAudioFound(dir: Entry, i: nat, k: nat, depth: nat)
    requires dir.Directory? && i <= k < |dir.items|
    requires dir.items[k].File? && IsAudioFile(dir.items[k].name)
    ensures dir.items[k] in ScanFrom(dir, i, depth)
    decreases k - i
  {
    if i < k {
      ListedAudioFound(dir, i + 1, k, depth);
    }
  }

  /** What the walk finds below an entered sub-folder is found in its parent too. */
  lemma {:induction false} NestedAudioFound(dir: Entry, i: nat, k: nat, depth: nat, f: Entry)
    requires dir.Directory? && i <= k < |dir.items|
    requires dir.items[k].Directory? && depth < 3 && !ShouldSkipDir(dir.items[k].name)
    requires f in ScanDir(dir.items[k], depth + 1)
    ensures f in ScanFrom(dir, i, depth)
    decreases k - i
  {
    if i < k {
      NestedAudioFound(dir, i + 1, k, depth, f);
    }
  }

  /** A readable folder holding one sub-folder that is entered yields
      what that sub-folder yields. */
  lemma SoleFolderScan(dir: Entry, depth: nat)
    requires dir.Directory? && dir.readable && depth < 3 && |dir.items| == 1
    requires dir.items[0].Directory? && !ShouldSkipDir(dir.items[0].name)
    ensures ScanDir(dir, depth) == ScanDir(dir.items[0], depth + 1)
  {
    assert ScanFrom(dir, 1, depth) == [];
    assert ScanFrom(dir, 0, depth) == ScanDir(dir.items[0], depth + 1) + ScanFrom(dir, 1, depth);
  }

  /** A one-letter folder name other than "." holds no skip word. */
  lemma OneLetterNotSkipped(name: string)
    requires |name| == 1 && name[0] != '.'
    ensures !ShouldSkipDir(name)
  {
  }

  /** A music file three folders down (root/a/b/c/<file>) is found. */
  lemma DeepestLevelFound(song: Entry, c: Entry, b: Entry, a: Entry, root: Entry)
    requires song.File? && IsAudioFile(song.name)
    requires c == Directory("c", "/root/a/b/c", true, [song])
    requires b == Directory("b", "/root/a/b", true, [c])
    requires a == Directory("a", "/root/a", true, [b])
    requires root == Directory("root", "/root", true, [a])
    ensures ScanDir(root, 0) == [song]
  {
    assert ScanDir(c, 3) == [song] by {
      assert ScanFrom(c, 1, 3) == [];
      assert ScanFrom(c, 0, 3) == [song] + ScanFrom(c, 1, 3);
    }
    OneLetterNotSkipped(c.name);
    OneLetterNotSkipped(b.name);
    OneLetterNotSkipped(a.name);
    SoleFolderScan(b, 2);
    SoleFolderScan(a, 1);
    SoleFolderScan(root, 0);
  }

  /** The mutable `foundFiles` array the recursive walk pushes into. */
  class Scanner {
    var foundFiles: seq<Entry>

    constructor ()
      ensures foundFiles == []
    {
      foundFiles := [];
    }

    /** `scanDirectory(dir.path, depth)`. */
    method ScanDirectory(dir: Entry, depth: nat)
      modifies this
      ensures foundFiles == old(foundFiles) + ScanDir(dir, depth)
      decreases dir, 1
    {
      if depth > 3 {
        return;
      }
      if !dir.Directory? || !dir.readable {
        return;
      }
      var i := 0;
      while i < |dir.items|
        invariant 0 <= i <= |dir.items|
        invariant foundFiles + ScanFrom(dir, i, depth) == old(foundFiles) + ScanDir(dir, depth)
        decreases |dir.items| - i
      {
        var item := dir.items[i];
        ghost var rest := ScanFrom(dir, i + 1, depth);
        if item.File? {
          assert ScanFrom(dir, i, depth) == (if IsAudioFile(item.name) then [item] else []) + rest;
          if IsAudioFile(item.name) {
            foundFiles := foundFiles + [item];
          }
        } else if depth < 3 {
          if !ShouldSkipDir(item.name) {
            ScanDirectory(item, depth + 1);
          }
        }
        i := i + 1;
      }
    }
  }

  /** The record the insert loop passes to `insertSong` for one file. */
  datatype NewSong = NewSong(title: string, path: string, duration: nat, artistNameString: string, genreString: string)

  /** The record for one found file: its stripped title and its path, with
      no duration, the "Unknown Artist" placeholder and no genre. */
  function NewSongFor(file: Entry): (r: NewSong)
    ensures r.title == TitleFromFileName(file.name) && r.path == file.path
    ensures r.duration == 0 && r.artistNameString == UnknownArtist && r.genreString == ""
  {
    NewSong(TitleFromFileName(file.name), file.path, 0, UnknownArtist, "")
  }

  /** The records for a list of found files, in order. */
  function NewSongs(files: seq<Entry>): seq<NewSong> {
    seq(|files|, i requires 0 <= i < |files| => NewSongFor(files[i]))
  }

  /** Whether `insertSong` returned a truthy id for the `i`-th file (a
      missing answer, or a thrown error, counts as no). */
  predicate Accepted(accepted: seq<bool>, i: nat) {
    i < |accepted| && accepted[i]
  }

  /** How many of the first `n` files the database accepted. */
  function CountAccepted(accepted: seq<bool>, n: nat): (c: nat)
    ensures c <= n
    ensures c == n <==> forall i :: 0 <= i < n ==> Accepted(accepted, i)
  {
    if n == 0 then 0
    else CountAccepted(accepted, n - 1) + (if Accepted(accepted, n - 1) then 1 else 0)
  }

  /** The insert loop of `scanMusic`: one `insertSong` call per found file,
      in order, and the count of truthy answers. */
  method InsertFound(found: seq<Entry>, accepted: seq<bool>) returns (calls: seq<NewSong>, insertedCount: nat)
    ensures |calls| == |found|
    ensures calls == NewSongs(found)
    ensures insertedCount == CountAccepted(accepted, |found|)
    ensures insertedCount <= |found|
  {
    calls, insertedCount := [], 0;
    for i := 0 to |found|
      invariant |calls| == i
      invariant calls == NewSongs(found[..i])
      invariant insertedCount == CountAccepted(accepted, i)
    {
      assert found[..i + 1] == found[..i] + [found[i]];
      calls := calls + [NewSongFor(found[i])];
      if Accepted(accepted, i) {
        insertedCount := insertedCount + 1;
      }
    }
  }

  /** What `scanMusic` ends with. */
  datatype ScanOutcome =
    | PermissionDenied
    | NoMusicFound
    | ScanComplete(found: nat, inserted: nat, calls: seq<NewSong>)

  /** The `title` update `handleEditSong` sends: only for a non-blank
      entry, and trimmed. */
  datatype TitleUpdate = TitleUpdate(songId: nat, title: string)

  function EditTitle(song: Song, text: string): (r: Option<TitleUpdate>)
    ensures r.None? <==> AllSpace(text)
    ensures r.Some? ==> r.value.songId == song.id && r.value.title == Trim(text) && r.value.title != ""
  {
    match NonBlankTrimmed(text)
    case None => None
    case Some(t) => Some(TitleUpdate(song.id, t))
  }

  /** The state of the songs screen. */
  class SongsScreen {
    var songs: seq<Song>
    var filteredSongs: seq<Song>
    var searchQuery: string
    var isScanning: bool

    constructor ()
      ensures songs == [] && filteredSongs == [] && searchQuery == "" && !isScanning
    {
      songs, filteredSongs, searchQuery, isScanning := [], [], "", false;
    }

    /** `loadSongs`: `all` is what `getAllSongs` returned. */
    method LoadSongs(all: seq<Song>)
      modifies this`songs, this`filteredSongs
      ensures songs == all && filteredSongs == all
    {
      songs := all;
      filteredSongs := all;
    }

    /** The search effect; `results` is what `searchSongs(searchQuery)` returned. */
    method ApplySearch(results: seq<Song>)
      modifies this`filteredSongs
      ensures filteredSongs == Shown(searchQuery, songs, results)
    {
      var shown := Shown(searchQuery, songs, results);
      filteredSongs := shown;
    }

    /** `scanMusic`: walk the tree from `root`, insert what was found and
        reload. `accepted` holds the database's answers, `reloaded` what
        `getAllSongs` returns afterwards. */
    method ScanMusic(hasPermission: bool, root: Entry, accepted: seq<bool>, reloaded: seq<Song>)
      returns (outcome: ScanOutcome)
      modifies this
      ensures !hasPermission ==> outcome == PermissionDenied
      ensures hasPermission && ScanDir(root, 0) == [] ==> outcome == NoMusicFound
      ensures hasPermission && ScanDir(root, 0) != [] ==>
        outcome.ScanComplete? && outcome.found == |ScanDir(root, 0)| &&
        outcome.inserted == CountAccepted(accepted, |ScanDir(root, 0)|) &&
        songs == reloaded && filteredSongs == reloaded
      ensures outcome.ScanComplete? ==> outcome.calls == NewSongs(ScanDir(root, 0))
      ensures outcome.ScanComplete? ==> outcome.inserted <= outcome.found && |outcome.calls| == outcome.found
      ensures !outcome.ScanComplete? ==> songs == old(songs) && filteredSongs == old(filteredSongs)
      ensures !hasPermission ==> isScanning == old(isScanning)
      ensures hasPermission ==> !isScanning
      ensures searchQuery == old(searchQuery)
    {
      if !hasPermission {
        return PermissionDenied;
      }
      isScanning := true;
      var scanner := new Scanner();
      scanner.ScanDirectory(root, 0);
      var found := scanner.foundFiles;
      if |found| == 0 {
        isScanning := false;
        return NoMusicFound;
      }
      var calls, insertedCount := InsertFound(found, accepted);
      LoadSongs(reloaded);
      outcome := ScanComplete(|found|, insertedCount, calls);
      isScanning := false;
    }
  }
}
