/**
 * The application-wide reducer: a fixed record of UI state and a pure
 * transition that overwrites one or two of its fields per action.
 */
module Reducer {
  import opened Text
  import opened Library

  datatype AppState = AppState(
    theme: string,
    layout: string,
    currentSong: Option<Song>,
    isPlaying: bool,
    songs: seq<Song>,
    playlists: seq<Playlist>,
    genres: seq<Genre>,
    artists: seq<Artist>,
    currentPlaylist: Option<Playlist>)

  /** The payload of `SET_SETTINGS`: a settings row; only its theme and
      layout are read. */
  datatype SettingsPayload = SettingsPayload(theme: string, layout: string)

  /** An action, by its `type`; `Other` is any type the switch does not name. */
  datatype Action =
    | SetTheme(theme: string)
    | SetLayout(layout: string)
    | SetCurrentSong(song: Option<Song>)
    | SetPlaying(playing: bool)
    | SetSongs(songs: seq<Song>)
    | SetPlaylists(playlists: seq<Playlist>)
    | SetGenres(genres: seq<Genre>)
    | SetArtists(artists: seq<Artist>)
    | SetCurrentPlaylist(playlist: Option<Playlist>)
    | SetSettings(settings: SettingsPayload)
    | Other(kind: string)

  datatype Field =
    Theme | Layout | CurrentSong | IsPlaying | Songs | Playlists | Genres | Artists | CurrentPlaylist

  const InitialState: AppState :=
    AppState("dark", "list", None, false, [], [], [], [], None)

  /** The state the app starts from: dark theme, list layout, nothing
      playing or selected, and every list empty. */
  lemma InitialStateIsEmpty()
    ensures InitialState.theme == "dark" && InitialState.layout == "list"
    ensures InitialState.currentSong.None? && InitialState.currentPlaylist.None?
    ensures !InitialState.isPlaying
    ensures InitialState.songs == [] && InitialState.playlists == []
    ensures InitialState.genres == [] && InitialState.artists == []
  {
  }

  /** The fields an action is meant to overwrite. */
  function Writes(a: Action): set<Field> {
    match a
    case SetTheme(_) => {Theme}
    case SetLayout(_) => {Layout}
    case SetCurrentSong(_) => {CurrentSong}
    case SetPlaying(_) => {IsPlaying}
    case SetSongs(_) => {Songs}
    case SetPlaylists(_) => {Playlists}
    case SetGenres(_) => {Genres}
    case SetArtists(_) => {Artists}
    case SetCurrentPlaylist(_) => {CurrentPlaylist}
    case SetSettings(_) => {Theme, Layout}
    case Other(_) => {}
  }

  predicate SameOn(s: AppState, t: AppState, f: Field) {
    match f
    case Theme => s.theme == t.theme
    case Layout => s.layout == t.layout
    case CurrentSong => s.currentSong == t.currentSong
    case IsPlaying => s.isPlaying == t.isPlaying
    case Songs => s.songs == t.songs
    case Playlists => s.playlists == t.playlists
    case Genres => s.genres == t.genres
    case Artists => s.artists == t.artists
    case CurrentPlaylist => s.currentPlaylist == t.currentPlaylist
  }

  /** `s` and `t` hold the same value in every field outside `fs`. */
  predicate AgreeOutside(s: AppState, t: AppState, fs: set<Field>) {
    forall f :: f !in fs ==> SameOn(s, t, f)
  }

  /** `r` holds the action's payload in the fields the action writes. */
  predicate Carries(a: Action, r: AppState) {
    match a
    case SetTheme(t) => r.theme == t
    case SetLayout(l) => r.layout == l
    case SetCurrentSong(x) => r.currentSong == x
    case SetPlaying(p) => r.isPlaying == p
    case SetSongs(x) => r.songs == x
    case SetPlaylists(x) => r.playlists == x
    case SetGenres(x) => r.genres == x
    case SetArtists(x) => r.artists == x
    case SetCurrentPlaylist(x) => r.currentPlaylist == x
    case SetSettings(p) => r.theme == p.theme && r.layout == p.layout
    case Other(_) => true
  }

  /** `appReducer`: the new state carries the payload in the fields the
      action writes and is the old state everywhere else. */
  function Reduce(s: AppState, a: Action): (r: AppState)
    ensures AgreeOutside(s, r, Writes(a))
    ensures Carries(a, r)
  {
    match a
    case SetTheme(t) => s.(theme := t)
    case SetLayout(l) => s.(layout := l)
    case SetCurrentSong(x) => s.(currentSong := x)
    case SetPlaying(p) => s.(isPlaying := p)
    case SetSongs(x) => s.(songs := x)
    case SetPlaylists(x) => s.(playlists := x)
    case SetGenres(x) => s.(genres := x)
    case SetArtists(x) => s.(artists := x)
    case SetCurrentPlaylist(x) => s.(currentPlaylist := x)
    case SetSettings(p) => s.(theme := p.theme, layout := p.layout)
    case Other(_) => s
  }

  /** The two clauses of `Reduce`'s contract pin the new state down: any
      state that keeps the old fields and carries the payload is it. */
  lemma ReduceUnique(s: AppState, a: Action, r: AppState)
    requires AgreeOutside(s, r, Writes(a))
    requires Carries(a, r)
    ensures r == Reduce(s, a)
  {
    assert SameOn(s, r, Theme) || Theme in Writes(a);
    assert SameOn(s, r, Layout) || Layout in Writes(a);
    assert SameOn(s, r, CurrentSong) || CurrentSong in Writes(a);
    assert SameOn(s, r, IsPlaying) || IsPlaying in Writes(a);
    assert SameOn(s, r, Songs) || Songs in Writes(a);
    assert SameOn(s, r, Playlists) || Playlists in Writes(a);
    assert SameOn(s, r, Genres) || Genres in Writes(a);
    assert SameOn(s, r, Artists) || Artists in Writes(a);
    assert SameOn(s, r, CurrentPlaylist) || CurrentPlaylist in Writes(a);
  }

  /** An action of a type the switch does not name leaves the state as it is. */
  lemma UnknownActionIsIdentity(s: AppState, kind: string)
    ensures Reduce(s, Other(kind)) == s
  {
  }

  /** Dispatching the same action twice is dispatching it once. */
  lemma ReduceIdempotent(s: AppState, a: Action)
    ensures Reduce(Reduce(s, a), a) == Reduce(s, a)
  {
    var r := Reduce(s, a);
    var r2 := Reduce(r, a);
    assert AgreeOutside(s, r2, Writes(a)) by {
      forall f | f !in Writes(a) ensures SameOn(s, r2, f) {
        assert SameOn(s, r, f) && SameOn(r, r2, f);
      }
    }
    ReduceUnique(s, a, r2);
  }

  /** Carrying a payload only looks at the fields the action writes. */
  lemma CarriesLocal(a: Action, r: AppState, t: AppState)
    requires Carries(a, r)
    requires forall f :: f in Writes(a) ==> SameOn(r, t, f)
    ensures Carries(a, t)
  {
    match a
    case SetSettings(_) => assert SameOn(r, t, Theme) && SameOn(r, t, Layout);
    case Other(_) =>
    case _ =>
      var f :| f in Writes(a);
      assert SameOn(r, t, f);
  }

  /** Two states that carry the same action's payload agree on the fields it writes. */
  lemma CarriesAgree(a: Action, r: AppState, t: AppState)
    requires Carries(a, r) && Carries(a, t)
    ensures forall f :: f in Writes(a) ==> SameOn(r, t, f)
  {
  }

  /** Actions that write disjoint fields commute, e.g. SET_THEME and SET_LAYOUT. */
  lemma ReduceCommutes(s: AppState, a: Action, b: Action)
    requires Writes(a) !! Writes(b)
    ensures Reduce(Reduce(s, a), b) == Reduce(Reduce(s, b), a)
  {
    var sa, sb := Reduce(s, a), Reduce(s, b);
    var ab := Reduce(sa, b);
    CarriesLocal(a, sa, ab);
    CarriesAgree(b, sb, ab);
    assert AgreeOutside(sb, ab, Writes(a)) by {
      forall f | f !in Writes(a) ensures SameOn(sb, ab, f) {
        if f !in Writes(b) {
          assert SameOn(s, sa, f) && SameOn(sa, ab, f) && SameOn(s, sb, f);
        }
      }
    }
    ReduceUnique(sb, a, ab);
  }
}
