/**
 * The message and callback handlers of bot/handlers.py: the translation
 * lookup, the parsing of callback data, the replies each handler sends and
 * the state it changes in the store, the search state and the lyrics API.
 * A handler's replies are returned in the order the handler sends them.
 */
module Handlers {
  import opened Wrappers
  import opened Text
  import opened Json
  import Storage
  import Services
  import Keyboards

  // ---------------------------------------------------------------------
  // Translations
  // ---------------------------------------------------------------------

  /** The keys `get_translation` is called with. */
  datatype Key =
    | StartKey | HelpKey | SearchSongKey | SongFoundKey | NoFavoritesKey | FavoritesKey | LanguageChangedKey
    | ErrorKey | AddedToFavoritesKey | LyricsKey | ChooseOptionKey | NoResultsKey | AboutKey

  /** The key as the tables spell it. */
  function Name(k: Key): string {
    match k
    case StartKey => "start"
    case HelpKey => "help"
    case SearchSongKey => "search_song"
    case SongFoundKey => "song_found"
    case NoFavoritesKey => "no_favorites"
    case FavoritesKey => "favorites"
    case LanguageChangedKey => "language_changed"
    case ErrorKey => "error"
    case AddedToFavoritesKey => "added_to_favorites"
    case LyricsKey => "lyrics"
    case ChooseOptionKey => "choose_option"
    case NoResultsKey => "no_results"
    case AboutKey => "about"
  }

  /** The "ru" table. */
  function Russian(k: Key): string {
    match k
    case StartKey => "Привет! Я музыкальный бот."
    case HelpKey => "Доступные команды:\n\n🎵 Найти песню\n⭐ Избранное\n🌍 Язык\nℹ️ О проекте"
    case SearchSongKey => "Введите название песни:"
    case SongFoundKey => "Найдена песня: {title} - {artist}"
    case NoFavoritesKey => "У вас пока нет избранного."
    case FavoritesKey => "Ваше избранное:\n\n🎵 Песни:\n{songs}"
    case LanguageChangedKey => "Язык изменен на русский."
    case ErrorKey => "Ошибка, попробуйте позже."
    case AddedToFavoritesKey => "Добавлено в избранное!"
    case LyricsKey => "Текст песни {title}:\n\n{lyrics}"
    case ChooseOptionKey => "Выберите действие:"
    case NoResultsKey => "По вашему запросу ничего не найдено."
    case AboutKey => "Это музыкальный бот, который помогает находить тексты песен с помощью Genius API."
  }

  /** The "en" table. */
  function English(k: Key): string {
    match k
    case StartKey => "Hello! I'm a music bot."
    case HelpKey => "Available commands:\n\n🎵 Find song\n⭐ Favorites\n🌍 Language\nℹ️ About"
    case SearchSongKey => "Enter song title:"
    case SongFoundKey => "Found song: {title} - {artist}"
    case NoFavoritesKey => "You don't have favorites yet."
    case FavoritesKey => "Your favorites:\n\n🎵 Songs:\n{songs}"
    case LanguageChangedKey => "Language changed to English."
    case ErrorKey => "Error, please try again."
    case AddedToFavoritesKey => "Added to favorites!"
    case LyricsKey => "Lyrics for {title}:\n\n{lyrics}"
    case ChooseOptionKey => "Choose an option:"
    case NoResultsKey => "No results found for your query."
    case AboutKey => "This is a music bot that helps you find song lyrics using Genius API."
  }

  /** The languages `load_locales` has a table for. */
  predicate HasTable(lang: string) {
    lang == "ru" || lang == "en"
  }

  /**
   * `locales.get(lang, {}).get(key, key)`: the entry of the user's table, and
   * the key itself for a language without a table.
   */
  function Translate(lang: string, key: Key): (t: string)
    ensures lang == "ru" ==> t == Russian(key)
    ensures lang == "en" ==> t == English(key)
    ensures !HasTable(lang) ==> t == Name(key)
  {
    if lang == "ru" then Russian(key) else if lang == "en" then English(key) else Name(key)
  }

  /** A user the store does not know yet is answered from the Russian table. */
  lemma NewUserReadsRussian(users: map<int, Storage.UserRecord>, uid: int, key: Key)
    requires uid !in users
    ensures Translate(Storage.UserOrDefault(users, uid).language, key) == Russian(key)
  {
  }

  /**
   * The store after a handler that only looked the user up: `get_user`
   * inserted the default record if `uid` was unknown, and nothing else changed.
   */
  twostate predicate Registered(store: Storage.Store, uid: int)
    reads store
  {
    && store.Valid()
    && store.users == old(store.users)[uid := Storage.UserOrDefault(old(store.users), uid)]
    && store.keys == old(store.keys) + (if uid in old(store.users) then [] else [Storage.UserKey(uid)])
    && store.banned == old(store.banned)
    && store.disk == old(store.disk)
    && store.saves == old(store.saves)
  }

  /** The user's language as the store holds it before the handler runs. */
  function LanguageOf(users: map<int, Storage.UserRecord>, uid: int): string {
    Storage.UserOrDefault(users, uid).language
  }

  /** `get_translation(user_id, key)`: looks the user up (inserting a default record), then translates. */
  method GetTranslation(store: Storage.Store, uid: int, key: Key) returns (t: string)
    requires store.Valid()
    modifies store
    ensures Registered(store, uid)
    ensures t == Translate(LanguageOf(old(store.users), uid), key)
  {
    var user := store.GetUser(uid);
    t := Translate(user.language, key);
  }

  // ---------------------------------------------------------------------
  // Callback data
  // ---------------------------------------------------------------------

  /** Splitting data that starts with `p_` yields `p` first, then the pieces of the rest. */
  lemma SplitAfterPrefix(p: string, data: string)
    requires '_' !in p && StartsWith(data, p + "_")
    ensures Split(data, '_') == [p] + Split(data[|p| + 1..], '_')
    ensures |Split(data, '_')| >= 2
  {
    assert data == p + ['_'] + data[|p| + 1..];
    SplitAtFirst(p, data[|p| + 1..], '_');
  }

  /** `callback.data.split("_")[1]` for language callbacks. */
  function CallbackLanguage(data: string): (lang: string)
    requires StartsWith(data, Keyboards.LanguageCallbackPrefix)
    ensures lang == Split(data[5..], '_')[0]
    ensures '_' !in data[5..] ==> lang == data[5..]
  {
    SplitAfterPrefix("lang", data);
    if '_' !in data[5..] then SplitWithoutSeparator(data[5..], '_'); Split(data, '_')[1]
    else Split(data, '_')[1]
  }

  /** `int(callback.data.split("_")[1])` for lyrics callbacks; `None` is the `ValueError` of `int`. */
  function LyricsSongId(data: string): Option<int>
    requires StartsWith(data, "lyrics_")
  {
    SplitAfterPrefix("lyrics", data);
    ParseInt(Split(data, '_')[1])
  }

  /** `int(callback.data.split("_")[2])` for favourite-song callbacks. */
  function FavoriteSongId(data: string): Option<int>
    requires StartsWith(data, "fav_song_")
  {
    FavoriteSplit(data);
    ParseInt(Split(data, '_')[2])
  }

  /** `fav_song_<x>` splits into `fav`, `song` and the pieces of `x`. */
  lemma FavoriteSplit(data: string)
    requires StartsWith(data, "fav_song_")
    ensures Split(data, '_') == ["fav", "song"] + Split(data[9..], '_')
  {
    assert "fav_song_" == "fav" + "_" + "song" + "_";
    TwoPrefixSplit("fav", "song", data);
  }

  /** Data starting with `p_q_` split into `p`, `q` and the pieces of the rest. */
  lemma TwoPrefixSplit(p: string, q: string, data: string)
    requires '_' !in p && '_' !in q && StartsWith(data, p + "_" + q + "_")
    ensures Split(data, '_') == [p, q] + Split(data[|p| + |q| + 2..], '_')
  {
    PrefixParts(p, q, data);
    var rest := data[|p| + 1..];
    SplitAfterPrefix(p, data);
    SplitAfterPrefix(q, rest);
    assert [p] + ([q] + Split(rest[|q| + 1..], '_')) == [p, q] + Split(rest[|q| + 1..], '_');
  }

  /** Data starting with `p_q_` start with `p_`, and what follows starts with `q_`. */
  lemma PrefixParts(p: string, q: string, data: string)
    requires StartsWith(data, p + "_" + q + "_")
    ensures StartsWith(data, p + "_")
    ensures StartsWith(data[|p| + 1..], q + "_")
    ensures data[|p| + 1..][|q| + 1..] == data[|p| + |q| + 2..]
  {
    var pre := p + "_" + q + "_";
    assert data[..|p| + 1] == data[..|pre|][..|p| + 1] == pre[..|p| + 1] == p + "_";
    assert data[|p| + 1..][..|q| + 1] == data[..|pre|][|p| + 1..] == pre[|p| + 1..] == q + "_";
  }

  /** The language picker's buttons select "ru" and "en". */
  lemma LanguageCallbacksRoundTrip()
    ensures forall i :: 0 <= i < 2 ==> StartsWith(Keyboards.LanguageKeyboard()[i].data, Keyboards.LanguageCallbackPrefix)
    ensures CallbackLanguage(Keyboards.LanguageKeyboard()[0].data) == "ru"
    ensures CallbackLanguage(Keyboards.LanguageKeyboard()[1].data) == "en"
  {
    var kb := Keyboards.LanguageKeyboard();
    assert kb[0].data[5..] == "ru";
    assert kb[1].data[5..] == "en";
  }

  /** Any text after `lang_` without a further `_` is taken as the language, even an empty one. */
  lemma CallbackLanguageOfAnyText(code: string)
    requires '_' !in code
    ensures StartsWith("lang_" + code, Keyboards.LanguageCallbackPrefix)
    ensures CallbackLanguage("lang_" + code) == code
  {
    assert ("lang_" + code)[5..] == code;
  }

  /** `p + "_" + str(id)` splits into `p` and the printed id. */
  lemma PrefixedIdSplit(p: string, id: int)
    requires '_' !in p
    ensures StartsWith(p + "_" + IntToString(id), p + "_")
    ensures Split(p + "_" + IntToString(id), '_') == [p, IntToString(id)]
  {
    var digits := IntToString(id);
    PrefixStarts(p + "_", digits);
    IntToStringAvoids(id, '_');
    SplitWithoutSeparator(digits, '_');
    assert p + "_" + digits == p + ['_'] + digits;
    SplitAtFirst(p, digits, '_');
  }

  /** The lyrics button of a song carries its id back: parsing inverts formatting for every integer. */
  lemma LyricsCallbackRoundTrip(id: int)
    ensures StartsWith(Keyboards.LyricsCallback(id), "lyrics_")
    ensures Split(Keyboards.LyricsCallback(id), '_') == ["lyrics", IntToString(id)]
    ensures LyricsSongId(Keyboards.LyricsCallback(id)) == Some(id)
  {
    assert "lyrics_" == "lyrics" + "_";
    assert Keyboards.LyricsCallback(id) == "lyrics" + "_" + IntToString(id);
    PrefixedIdSplit("lyrics", id);
    ParseIntOfIntToString(id);
  }

  /** The favourites button's data split into `fav`, `song` and the printed id. */
  lemma FavoriteSongCallbackSplit(id: int)
    ensures StartsWith(Keyboards.FavoriteSongCallback(id), "fav_song_")
    ensures Split(Keyboards.FavoriteSongCallback(id), '_') == ["fav", "song", IntToString(id)]
  {
    var digits := IntToString(id);
    var data := Keyboards.FavoriteSongCallback(id);
    PrefixStarts("fav_song_", digits);
    FavoriteSplit(data);
    assert data[9..] == digits;
    IntToStringAvoids(id, '_');
    SplitWithoutSeparator(digits, '_');
  }

  /** The favourites button of a song carries its id back in the third piece. */
  lemma FavoriteSongCallbackRoundTrip(id: int)
    ensures StartsWith(Keyboards.FavoriteSongCallback(id), "fav_song_")
    ensures Split(Keyboards.FavoriteSongCallback(id), '_') == ["fav", "song", IntToString(id)]
    ensures FavoriteSongId(Keyboards.FavoriteSongCallback(id)) == Some(id)
  {
    FavoriteSongCallbackSplit(id);
    ParseIntOfIntToString(id);
  }

  // ---------------------------------------------------------------------
  // Routing within the two routers, in registration order
  // ---------------------------------------------------------------------

  datatype Route =
    | StartRoute | HelpRoute | SearchStartRoute | SearchResultRoute | AboutRoute | FavoritesRoute | LanguageRoute
    | SetLanguageRoute | LyricsRoute | FavoriteSongRoute
    | StatsRoute | BroadcastRoute | BanRoute

  const SearchLabels: seq<string> := ["🎵 Найти песню", "🎵 Find song"]
  const AboutLabels: seq<string> := ["ℹ️ О проекте", "ℹ️ About"]
  const FavoritesLabels: seq<string> := ["⭐ Избранное", "⭐ Favorites"]
  const LanguageLabels: seq<string> := ["🌍 Язык", "🌍 Language"]

  /** The first whitespace-delimited word of a text. */
  function FirstWord(s: string): (w: string)
    ensures |w| <= |s| && w == s[..|w|]
    decreases |s|
  {
    if s == [] || IsSpace(s[0]) then [] else [s[0]] + FirstWord(s[1..])
  }

  /** `Command(name)`: the first word of the text is `/name` (mentions such as `/start@bot` are not part of this model). */
  predicate IsCommand(text: Option<string>, name: string) {
    text.Some? && FirstWord(StripLeft(text.value)) == "/" + name
  }

  /** A text without spaces is a single word. */
  lemma {:induction false} FirstWordNoSpace(s: string)
    requires forall i :: 0 <= i < |s| ==> !IsSpace(s[i])
    ensures FirstWord(s) == s
    decreases |s|
  {
    if s != [] {
      FirstWordNoSpace(s[1..]);
      assert [s[0]] + s[1..] == s;
    }
  }

  /** A text without spaces is exactly the command it spells, and no other. */
  lemma CommandText(s: string, name: string)
    requires forall i :: 0 <= i < |s| ==> !IsSpace(s[i])
    ensures IsCommand(Some(s), name) <==> s == "/" + name
  {
    FirstWordNoSpace(s);
    if s != [] {
      assert StripLeft(s) == s;
    }
  }

  /** A text that starts with neither a space nor a slash is no command. */
  lemma NotCommand(s: string, name: string)
    requires |s| > 0 && !IsSpace(s[0]) && s[0] != '/'
    ensures !IsCommand(Some(s), name)
  {
    assert StripLeft(s) == s;
    assert FirstWord(s)[0] == s[0];
  }

  /** A text made of a prefix and a rest passes `startswith` of that prefix. */
  lemma PrefixStarts(p: string, rest: string)
    ensures StartsWith(p + rest, p)
  {
    assert (p + rest)[..|p|] == p;
  }

  /** A text whose `i`-th character differs from the prefix's does not start with it. */
  lemma NotPrefix(s: string, p: string, i: nat)
    requires i < |p| && i < |s| && s[i] != p[i]
    ensures !StartsWith(s, p)
  {
    if |p| <= |s| {
      assert s[..|p|][i] != p[i];
    }
  }

  /** `F.text.in_(labels)`: a text message whose text is one of the labels. */
  predicate TextIn(text: Option<string>, labels: seq<string>) {
    text.Some? && text.value in labels
  }

  /** The message handlers of `router`, tried in the order they are declared. */
  function RouterMessage(text: Option<string>, waiting: bool): Option<Route> {
    if IsCommand(text, "start") then Some(StartRoute)
    else if IsCommand(text, "help") then Some(HelpRoute)
    else if TextIn(text, SearchLabels) then Some(SearchStartRoute)
    else if waiting then Some(SearchResultRoute)
    else if TextIn(text, AboutLabels) then Some(AboutRoute)
    else if TextIn(text, FavoritesLabels) then Some(FavoritesRoute)
    else if TextIn(text, LanguageLabels) then Some(LanguageRoute)
    else None
  }

  /** The message handlers of `admin_router`. */
  function AdminMessage(text: Option<string>): Option<Route> {
    if IsCommand(text, "stats") then Some(StatsRoute)
    else if IsCommand(text, "broadcast") then Some(BroadcastRoute)
    else if text.Some? && StartsWith(text.value, "/ban ") then Some(BanRoute)
    else None
  }

  /** A text without white space that is neither `/stats` nor `/broadcast` and does not start with `/ban ` meets no admin filter. */
  lemma NoAdminMessage(s: string)
    requires forall i :: 0 <= i < |s| ==> !IsSpace(s[i])
    requires s != "/" + "stats" && s != "/" + "broadcast" && !StartsWith(s, "/ban ")
    ensures AdminMessage(Some(s)).None?
  {
    CommandText(s, "stats");
    CommandText(s, "broadcast");
  }

  /** The callback handlers of `router`. */
  function RouterCallback(data: string): Option<Route> {
    if StartsWith(data, "lang_") then Some(SetLanguageRoute)
    else if StartsWith(data, "lyrics_") then Some(LyricsRoute)
    else if StartsWith(data, "fav_song_") then Some(FavoriteSongRoute)
    else None
  }

  /** Each button of the main keyboard, in either language, is one of the texts its handler filters on. */
  lemma MainLabelsReachHandlers(lang: string)
    ensures RouterMessage(Some(Keyboards.MainLabels(lang)[0]), false) == Some(SearchStartRoute)
    ensures RouterMessage(Some(Keyboards.MainLabels(lang)[1]), false) == Some(FavoritesRoute)
    ensures RouterMessage(Some(Keyboards.MainLabels(lang)[2]), false) == Some(LanguageRoute)
    ensures RouterMessage(Some(Keyboards.MainLabels(lang)[3]), false) == Some(AboutRoute)
  {
    var labels := Keyboards.MainLabels(lang);
    if lang == "ru" {
      assert labels == ["🎵 Найти песню", "⭐ Избранное", "🌍 Язык", "ℹ️ О проекте"];
      RussianLabelsReachHandlers();
    } else {
      assert labels == ["🎵 Find song", "⭐ Favorites", "🌍 Language", "ℹ️ About"];
      EnglishLabelsReachHandlers();
    }
  }

  /** Outside the waiting state, each Russian label reaches its menu handler. */
  lemma RussianLabelsReachHandlers()
    ensures RouterMessage(Some("🎵 Найти песню"), false) == Some(SearchStartRoute)
    ensures RouterMessage(Some("⭐ Избранное"), false) == Some(FavoritesRoute)
    ensures RouterMessage(Some("🌍 Язык"), false) == Some(LanguageRoute)
    ensures RouterMessage(Some("ℹ️ О проекте"), false) == Some(AboutRoute)
  {
    SearchLabelRoute("🎵 Найти песню");
    FavoritesLabelRoute("⭐ Избранное");
    LanguageLabelRoute("🌍 Язык");
    AboutLabelRoute("ℹ️ О проекте");
  }

  /** Outside the waiting state, each English label reaches its menu handler. */
  lemma EnglishLabelsReachHandlers()
    ensures RouterMessage(Some("🎵 Find song"), false) == Some(SearchStartRoute)
    ensures RouterMessage(Some("⭐ Favorites"), false) == Some(FavoritesRoute)
    ensures RouterMessage(Some("🌍 Language"), false) == Some(LanguageRoute)
    ensures RouterMessage(Some("ℹ️ About"), false) == Some(AboutRoute)
  {
    SearchLabelRoute("🎵 Find song");
    FavoritesLabelRoute("⭐ Favorites");
    LanguageLabelRoute("🌍 Language");
    AboutLabelRoute("ℹ️ About");
  }

  /** The first characters of the four menu entries' labels. */
  lemma LabelHeads()
    ensures forall i :: 0 <= i < |SearchLabels| ==> |SearchLabels[i]| > 0 && SearchLabels[i][0] == '🎵'
    ensures forall i :: 0 <= i < |AboutLabels| ==> |AboutLabels[i]| > 0 && AboutLabels[i][0] == 'ℹ'
    ensures forall i :: 0 <= i < |FavoritesLabels| ==> |FavoritesLabels[i]| > 0 && FavoritesLabels[i][0] == '⭐'
    ensures forall i :: 0 <= i < |LanguageLabels| ==> |LanguageLabels[i]| > 0 && LanguageLabels[i][0] == '🌍'
  {
  }

  /** Outside the waiting state, a "find song" label starts a search. */
  lemma SearchLabelRoute(s: string)
    requires s in SearchLabels
    ensures RouterMessage(Some(s), false) == Some(SearchStartRoute)
  {
    LabelHeads();
    MenuTextRoute(s);
  }

  /** Outside the waiting state, an "about" label reaches `show_about`. */
  lemma AboutLabelRoute(s: string)
    requires s in AboutLabels
    ensures RouterMessage(Some(s), false) == Some(AboutRoute)
  {
    LabelHeads();
    StartsAside(s, SearchLabels, s[0]);
    MenuTextRoute(s);
  }

  /** Outside the waiting state, a "favourites" label reaches `show_favorites`. */
  lemma FavoritesLabelRoute(s: string)
    requires s in FavoritesLabels
    ensures RouterMessage(Some(s), false) == Some(FavoritesRoute)
  {
    LabelHeads();
    StartsAside(s, SearchLabels, s[0]);
    StartsAside(s, AboutLabels, s[0]);
    MenuTextRoute(s);
  }

  /** Outside the waiting state, a "language" label reaches `change_language`. */
  lemma LanguageLabelRoute(s: string)
    requires s in LanguageLabels
    ensures RouterMessage(Some(s), false) == Some(LanguageRoute)
  {
    LabelHeads();
    StartsAside(s, SearchLabels, s[0]);
    StartsAside(s, AboutLabels, s[0]);
    StartsAside(s, FavoritesLabels, s[0]);
    MenuTextRoute(s);
  }

  /** Outside the waiting state, a text that is no command goes to the first menu filter it is listed in. */
  lemma MenuTextRoute(s: string)
    requires |s| > 0 && !IsSpace(s[0]) && s[0] != '/'
    ensures RouterMessage(Some(s), false)
         == if s in SearchLabels then Some(SearchStartRoute)
            else if s in AboutLabels then Some(AboutRoute)
            else if s in FavoritesLabels then Some(FavoritesRoute)
            else if s in LanguageLabels then Some(LanguageRoute)
            else None
  {
    NotCommand(s, "start");
    NotCommand(s, "help");
  }

  /** A text whose first character begins none of the labels is none of them. */
  lemma StartsAside(s: string, labels: seq<string>, c: char)
    requires |s| > 0 && s[0] == c
    requires forall i :: 0 <= i < |labels| ==> |labels[i]| > 0 && labels[i][0] != c
    ensures s !in labels
  {
  }

  /** The callbacks of the song keyboards and the language picker reach their handlers; those of the artist keyboard reach none. */
  lemma KeyboardCallbacksReachHandlers(id: int)
    ensures RouterCallback(Keyboards.LanguageKeyboard()[0].data) == Some(SetLanguageRoute)
    ensures RouterCallback(Keyboards.LanguageKeyboard()[1].data) == Some(SetLanguageRoute)
    ensures RouterCallback(Keyboards.LyricsCallback(id)) == Some(LyricsRoute)
    ensures RouterCallback(Keyboards.FavoriteSongCallback(id)) == Some(FavoriteSongRoute)
    ensures RouterCallback(Keyboards.ArtistSongsCallback(id)) == None
    ensures RouterCallback(Keyboards.FavoriteArtistCallback(id)) == None
  {
    LanguageCallbacksRoundTrip();
    SongCallbacksRoute(id);
    ArtistCallbacksRoute(id);
  }

  /** The song keyboard's two callbacks reach `show_lyrics` and `add_song_to_favorites`. */
  lemma SongCallbacksRoute(id: int)
    ensures RouterCallback(Keyboards.LyricsCallback(id)) == Some(LyricsRoute)
    ensures RouterCallback(Keyboards.FavoriteSongCallback(id)) == Some(FavoriteSongRoute)
  {
    PrefixStarts("lyrics_", IntToString(id));
    PrefixStarts("fav_song_", IntToString(id));
    NotPrefix(Keyboards.LyricsCallback(id), "lang_", 1);
    NotPrefix(Keyboards.FavoriteSongCallback(id), "lang_", 0);
    NotPrefix(Keyboards.FavoriteSongCallback(id), "lyrics_", 0);
  }

  /** No callback handler takes the artist keyboard's data. */
  lemma ArtistCallbacksRoute(id: int)
    ensures RouterCallback(Keyboards.ArtistSongsCallback(id)) == None
    ensures RouterCallback(Keyboards.FavoriteArtistCallback(id)) == None
  {
    var songs := Keyboards.ArtistSongsCallback(id);
    assert songs[0] == 's';
    NotPrefix(songs, "lang_", 0);
    NotPrefix(songs, "lyrics_", 0);
    NotPrefix(songs, "fav_song_", 0);
    var artist := Keyboards.FavoriteArtistCallback(id);
    assert artist[0] == 'f' && artist[4] == 'a';
    NotPrefix(artist, "lang_", 0);
    NotPrefix(artist, "lyrics_", 0);
    NotPrefix(artist, "fav_song_", 4);
  }

  // ---------------------------------------------------------------------
  // Replies
  // ---------------------------------------------------------------------

  datatype Markup =
    | NoMarkup
    | ReplyMarkup(keyboard: Keyboards.ReplyKeyboard)
    | InlineMarkup(buttons: seq<Keyboards.InlineButton>)

  /** `message.answer(text, reply_markup)` is an `Answer`; `callback.answer(text)` a `Notice`. */
  datatype Reply = Answer(text: string, markup: Markup) | Notice(text: string)

  /** A handler either sends its replies or raises an exception that escapes it. */
  datatype Outcome = Replied(replies: seq<Reply>) | Raised

  function ErrorAnswer(lang: string): Reply {
    Answer(Translate(lang, ErrorKey), NoMarkup)
  }

  /** `get_translation(uid, "song_found").format(title=..., artist=...)`. */
  function SongFoundText(lang: string, title: string, artist: string): Option<string> {
    Format(Translate(lang, SongFoundKey), map["title" := title, "artist" := artist])
  }

  /** The found-song line names the title and the artist, in the user's language. */
  lemma SongFoundShows(lang: string, title: string, artist: string)
    ensures lang == "ru" ==> SongFoundText(lang, title, artist) == Some("Найдена песня: " + title + " - " + artist)
    ensures lang == "en" ==> SongFoundText(lang, title, artist) == Some("Found song: " + title + " - " + artist)
    ensures !HasTable(lang) ==> SongFoundText(lang, title, artist) == Some("song_found")
  {
    if lang == "ru" {
      RussianSongFoundTemplate();
      SongFoundUnder(lang, title, artist, "Найдена песня: ");
    } else if lang == "en" {
      EnglishSongFoundTemplate();
      SongFoundUnder(lang, title, artist, "Found song: ");
    } else if !HasTable(lang) {
      FormatPlain("song_found", map["title" := title, "artist" := artist]);
    }
  }

  /** A found-song template `heading{title} - {artist}` puts the title, a dash and the artist after the heading. */
  lemma SongFoundUnder(lang: string, title: string, artist: string, heading: string)
    requires NoBraces(heading)
    requires Translate(lang, SongFoundKey) == heading + "{" + "title" + "}" + " - " + "{" + "artist" + "}" + ""
    ensures SongFoundText(lang, title, artist) == Some(heading + title + " - " + artist)
  {
    var args := map["title" := title, "artist" := artist];
    FormatTwoFields(heading, "title", " - ", "artist", "", args);
    assert heading + title + " - " + artist + "" == heading + title + " - " + artist;
  }

  /** The Russian found-song template: a heading, the title field, a dash, the artist field. */
  lemma RussianSongFoundTemplate()
    ensures NoBraces("Найдена песня: ")
    ensures Russian(SongFoundKey) == "Найдена песня: " + "{" + "title" + "}" + " - " + "{" + "artist" + "}" + ""
  {
  }

  /** The English found-song template, laid out as the Russian one. */
  lemma EnglishSongFoundTemplate()
    ensures NoBraces("Found song: ")
    ensures English(SongFoundKey) == "Found song: " + "{" + "title" + "}" + " - " + "{" + "artist" + "}" + ""
  {
  }

  /**
   * One pass of the search loop: `song["title"]`, `song["primary_artist"]["name"]`,
   * the formatted line and the song's keyboard. `None` is any exception on the way.
   */
  function SongAnswer(hit: Json, lang: string): Option<Reply> {
    var title := Get(hit, "title");
    var artist := Path(hit, "primary_artist", "name");
    if title.None? || artist.None? then None
    else
      var t := Display(title.value);
      var a := Display(artist.value);
      if t.None? || a.None? then None
      else
        var text := SongFoundText(lang, t.value, a.value);
        var id := Get(hit, "id");
        if text.None? || id.None? || !id.value.JInt? then None
        else Some(Answer(text.value, InlineMarkup(Keyboards.SongActionsKeyboard(id.value.i, lang))))
  }

  /**
   * The replies of a loop that answers each hit with `answer` until the first
   * hit it cannot answer, which sends `error` and stops the loop.
   */
  function AnswerEach<T, R>(hits: seq<T>, answer: T -> Option<R>, error: R): seq<R>
    decreases |hits|
  {
    if hits == [] then []
    else match answer(hits[0])
      case None => [error]
      case Some(r) => [r] + AnswerEach(hits[1..], answer, error)
  }

  /** The answer of the search loop to one hit in language `lang`. */
  function HitAnswer(lang: string): Json -> Option<Reply> {
    hit => SongAnswer(hit, lang)
  }

  /** The replies of the search loop over `hits`. */
  function Listing(hits: seq<Json>, lang: string): seq<Reply> {
    AnswerEach(hits, HitAnswer(lang), ErrorAnswer(lang))
  }

  const ResultCap: nat := 5

  function Take<T>(xs: seq<T>, n: nat): (ys: seq<T>)
    ensures |ys| == if |xs| <= n then |xs| else n
    ensures ys == xs[..|ys|]
  {
    if |xs| <= n then xs else xs[..n]
  }

  /**
   * `search_song_result` once the hits are known: a falsy result sends the
   * error; a result that is not a list fails on its first use; otherwise the
   * first five hits are listed.
   */
  function SearchReplies(songs: Json, lang: string): seq<Reply> {
    if !Truthy(songs) || !songs.JList? then [ErrorAnswer(lang)]
    else Listing(Take(songs.items, ResultCap), lang)
  }

  /** A search hit with the fields the loop reads. */
  function HitJson(id: int, title: string, artist: string): Json {
    JObject(map["id" := JInt(id), "title" := JStr(title), "primary_artist" := JObject(map["name" := JStr(artist)])])
  }

  /** A well-formed hit is answered with its title and artist, and buttons that carry its id. */
  lemma SongAnswerOfHit(id: int, title: string, artist: string, lang: string)
    requires HasTable(lang)
    ensures SongFoundText(lang, title, artist).Some?
    ensures SongAnswer(HitJson(id, title, artist), lang)
         == Some(Answer(SongFoundText(lang, title, artist).value, InlineMarkup(Keyboards.SongActionsKeyboard(id, lang))))
  {
    SongFoundShows(lang, title, artist);
    var hit := HitJson(id, title, artist);
    assert Get(hit, "title") == Some(JStr(title));
    assert Get(hit, "primary_artist") == Some(JObject(map["name" := JStr(artist)]));
    assert Get(hit, "id") == Some(JInt(id));
  }

  /** At most one reply per hit, and at least one when there are hits. */
  lemma {:induction false} ListingLength<T, R>(hits: seq<T>, answer: T -> Option<R>, error: R)
    ensures |AnswerEach(hits, answer, error)| <= |hits|
    ensures hits != [] ==> |AnswerEach(hits, answer, error)| >= 1
    decreases |hits|
  {
    if hits != [] && answer(hits[0]).Some? {
      ListingLength(hits[1..], answer, error);
    }
  }

  /** Every search sends between one and five replies. */
  lemma SearchRepliesBounds(songs: Json, lang: string)
    ensures 1 <= |SearchReplies(songs, lang)| <= ResultCap
  {
    if Truthy(songs) && songs.JList? {
      ListingLength(Take(songs.items, ResultCap), HitAnswer(lang), ErrorAnswer(lang));
    }
  }

  /** No hits, or a failed request, send exactly the error text. */
  lemma NoHitsSendError(songs: Json, lang: string)
    requires !Truthy(songs)
    ensures SearchReplies(songs, lang) == [ErrorAnswer(lang)]
  {
  }

  /** When every hit can be answered, each is answered, in order. */
  lemma {:induction false} ListingAllFound<T, R>(hits: seq<T>, answer: T -> Option<R>, error: R)
    requires forall i :: 0 <= i < |hits| ==> answer(hits[i]).Some?
    ensures |AnswerEach(hits, answer, error)| == |hits|
    ensures forall i :: 0 <= i < |hits| ==> Some(AnswerEach(hits, answer, error)[i]) == answer(hits[i])
    decreases |hits|
  {
    if hits != [] {
      ListingAllFound(hits[1..], answer, error);
      var rest := AnswerEach(hits[1..], answer, error);
      assert AnswerEach(hits, answer, error) == [answer(hits[0]).value] + rest;
      assert forall i :: 1 <= i < |hits| ==> hits[i] == hits[1..][i - 1];
    }
  }

  /** When hit `k` is the first that cannot be answered, the `k` hits before it are answered, then the error, and nothing more. */
  lemma {:induction false} ListingFirstFailure<T, R>(hits: seq<T>, answer: T -> Option<R>, error: R, k: nat)
    requires k < |hits|
    requires forall i :: 0 <= i < k ==> answer(hits[i]).Some?
    requires answer(hits[k]).None?
    ensures |AnswerEach(hits, answer, error)| == k + 1
    ensures forall i :: 0 <= i < k ==> Some(AnswerEach(hits, answer, error)[i]) == answer(hits[i])
    ensures AnswerEach(hits, answer, error)[k] == error
    decreases k
  {
    if k > 0 {
      assert forall i :: 0 <= i < k - 1 ==> hits[1..][i] == hits[i + 1];
      ListingFirstFailure(hits[1..], answer, error, k - 1);
      var rest := AnswerEach(hits[1..], answer, error);
      assert AnswerEach(hits, answer, error) == [answer(hits[0]).value] + rest;
    }
  }

  /** `str(v)` of `message.text` in the query: a message without text searches for "None". */
  function QueryText(text: Option<string>): string {
    match text
    case Some(t) => t
    case None => "None"
  }

  /** The search state of the conversation with each user (`FSMContext`). */
  class Conversations {
    var waitingForSong: set<int>

    constructor ()
      ensures waitingForSong == {}
    {
      waitingForSong := {};
    }
  }

  /** `cmd_start`: the greeting with the main keyboard of the user's language. */
  method CmdStart(store: Storage.Store, uid: int) returns (reply: Reply)
    requires store.Valid()
    modifies store
    ensures Registered(store, uid)
    ensures var lang := LanguageOf(old(store.users), uid);
      reply == Answer(Translate(lang, StartKey), ReplyMarkup(Keyboards.MainLayout(lang)))
  {
    var text := GetTranslation(store, uid, StartKey);
    var user := store.GetUser(uid);
    var kb := Keyboards.MainKeyboard(user.language);
    reply := Answer(text, ReplyMarkup(kb));
  }

  /** `cmd_help`. */
  method CmdHelp(store: Storage.Store, uid: int) returns (reply: Reply)
    requires store.Valid()
    modifies store
    ensures Registered(store, uid)
    ensures reply == Answer(Translate(LanguageOf(old(store.users), uid), HelpKey), NoMarkup)
  {
    var text := GetTranslation(store, uid, HelpKey);
    reply := Answer(text, NoMarkup);
  }

  /** `search_song_start`: enters the waiting state and asks for a title. */
  method SearchSongStart(store: Storage.Store, conversations: Conversations, uid: int) returns (reply: Reply)
    requires store.Valid()
    modifies store, conversations
    ensures Registered(store, uid)
    ensures conversations.waitingForSong == old(conversations.waitingForSong) + {uid}
    ensures reply == Answer(Translate(LanguageOf(old(store.users), uid), SearchSongKey), NoMarkup)
  {
    conversations.waitingForSong := conversations.waitingForSong + {uid};
    var text := GetTranslation(store, uid, SearchSongKey);
    reply := Answer(text, NoMarkup);
  }

  /** One step of `AnswerEach` at position `i`. */
  lemma AnswerEachAt<T, R>(hits: seq<T>, answer: T -> Option<R>, error: R, i: nat)
    requires i < |hits|
    ensures answer(hits[i]).None? ==> AnswerEach(hits[i..], answer, error) == [error]
    ensures answer(hits[i]).Some? ==> AnswerEach(hits[i..], answer, error) == [answer(hits[i]).value] + AnswerEach(hits[i + 1..], answer, error)
  {
    assert hits[i..][0] == hits[i] && hits[i..][1..] == hits[i + 1..];
  }

  /** The `for song in songs[:5]` loop: one answer per hit, until the first failure sends the error and stops. */
  method ListHits<T, R>(hits: seq<T>, answer: T -> Option<R>, error: R) returns (replies: seq<R>)
    ensures replies == AnswerEach(hits, answer, error)
  {
    replies := [];
    var i := 0;
    while i < |hits| && answer(hits[i]).Some?
      invariant 0 <= i <= |hits|
      invariant AnswerEach(hits, answer, error) == replies + AnswerEach(hits[i..], answer, error)
      decreases |hits| - i
    {
      AnswerEachAt(hits, answer, error, i);
      replies := replies + [answer(hits[i]).value];
      i := i + 1;
    }
    if i < |hits| {
      AnswerEachAt(hits, answer, error, i);
      replies := replies + [error];
    } else {
      assert hits[i..] == [];
    }
  }

  /**
   * `search_song_result`: searches for the message's text and answers as
   * `SearchReplies` says; the waiting state is cleared on every path.
   */
  method SearchSongResult(store: Storage.Store, api: Services.GeniusApi, conversations: Conversations,
                          uid: int, text: Option<string>, outcome: Services.HttpOutcome)
    returns (replies: seq<Reply>)
    requires store.Valid()
    modifies store, api, conversations
    ensures Registered(store, uid)
    ensures replies == SearchReplies(Services.SearchHits(Services.Receive(outcome)), LanguageOf(old(store.users), uid))
    ensures api.sent == old(api.sent) + [Services.Request(Services.QueryUrl("/search", Some([("q", QueryText(text))])), Services.Headers(api.token), Services.TimeoutSeconds)]
    ensures api.session == Services.Open
    ensures conversations.waitingForSong == old(conversations.waitingForSong) - {uid}
  {
    var user := store.GetUser(uid);
    var lang := user.language;
    var songs := api.SearchSongs(QueryText(text), outcome);
    if !Truthy(songs) || !songs.JList? {
      replies := [ErrorAnswer(lang)];
    } else {
      replies := ListHits(Take(songs.items, ResultCap), HitAnswer(lang), ErrorAnswer(lang));
    }
    conversations.waitingForSong := conversations.waitingForSong - {uid};
  }

  /** `show_about`. */
  method ShowAbout(store: Storage.Store, uid: int) returns (reply: Reply)
    requires store.Valid()
    modifies store
    ensures Registered(store, uid)
    ensures reply == Answer(Translate(LanguageOf(old(store.users), uid), AboutKey), NoMarkup)
  {
    var text := GetTranslation(store, uid, AboutKey);
    reply := Answer(text, NoMarkup);
  }

  // ---------------------------------------------------------------------
  // Favourites
  // ---------------------------------------------------------------------

  /** `f"- {s['title']} by {s['primary_artist']['name']}"`. */
  function FavoriteLine(s: Storage.Song): string {
    "- " + s.title + " by " + s.artistName
  }

  function FavoriteLines(songs: seq<Storage.Song>): (lines: seq<string>)
    ensures |lines| == |songs|
    ensures forall i :: 0 <= i < |songs| ==> lines[i] == FavoriteLine(songs[i])
  {
    seq(|songs|, i requires 0 <= i < |songs| => FavoriteLine(songs[i]))
  }

  /** `"\n".join(lines) or "None"`. */
  function FavoritesBody(songs: seq<Storage.Song>): string {
    var joined := Join("\n", FavoriteLines(songs));
    if joined == "" then "None" else joined
  }

  /** `show_favorites` once the user's songs are known: `Raised` would be a failing `format`. */
  function FavoritesOutcome(lang: string, songs: seq<Storage.Song>): Outcome {
    if songs == [] then Replied([Answer(Translate(lang, NoFavoritesKey), NoMarkup)])
    else match Format(Translate(lang, FavoritesKey), map["songs" := FavoritesBody(songs)])
      case None => Raised
      case Some(text) => Replied([Answer(text, NoMarkup)])
  }

  /** The list has one line per favourite song, in order; the "None" fallback never applies to a non-empty list. */
  lemma FavoritesBodyLines(songs: seq<Storage.Song>)
    requires songs != []
    ensures FavoritesBody(songs) == Join("\n", FavoriteLines(songs))
    ensures (forall i :: 0 <= i < |songs| ==> '\n' !in songs[i].title && '\n' !in songs[i].artistName)
        ==> Split(FavoritesBody(songs), '\n') == FavoriteLines(songs)
  {
    var lines := FavoriteLines(songs);
    assert |Join("\n", lines)| >= |lines[0]| >= 2;
    if forall i :: 0 <= i < |songs| ==> '\n' !in songs[i].title && '\n' !in songs[i].artistName {
      forall i | 0 <= i < |lines|
        ensures '\n' !in lines[i]
      {
        assert lines[i] == "- " + songs[i].title + " by " + songs[i].artistName;
      }
      SplitJoin(lines, '\n');
    }
  }

  /** A heading template with the one field `{songs}` puts the list after the heading. */
  lemma FavoritesUnder(lang: string, songs: seq<Storage.Song>, heading: string)
    requires songs != [] && NoBraces(heading)
    requires Translate(lang, FavoritesKey) == heading + "{" + "songs" + "}" + ""
    ensures FavoritesOutcome(lang, songs) == Replied([Answer(heading + FavoritesBody(songs), NoMarkup)])
  {
    var args := map["songs" := FavoritesBody(songs)];
    FormatOneField(heading, "songs", "", args);
    assert heading + FavoritesBody(songs) + "" == heading + FavoritesBody(songs);
  }

  /** Favourites under the heading of the user's language; an empty list gets its own message; it never raises. */
  lemma FavoritesShows(lang: string, songs: seq<Storage.Song>)
    ensures songs == [] ==> FavoritesOutcome(lang, songs) == Replied([Answer(Translate(lang, NoFavoritesKey), NoMarkup)])
    ensures songs != [] && lang == "ru" ==>
      FavoritesOutcome(lang, songs) == Replied([Answer("Ваше избранное:\n\n🎵 Песни:\n" + FavoritesBody(songs), NoMarkup)])
    ensures songs != [] && lang == "en" ==>
      FavoritesOutcome(lang, songs) == Replied([Answer("Your favorites:\n\n🎵 Songs:\n" + FavoritesBody(songs), NoMarkup)])
    ensures FavoritesOutcome(lang, songs).Replied?
  {
    if songs != [] {
      if lang == "ru" {
        RussianFavoritesTemplate();
        FavoritesUnder(lang, songs, "Ваше избранное:\n\n🎵 Песни:\n");
      } else if lang == "en" {
        EnglishFavoritesTemplate();
        FavoritesUnder(lang, songs, "Your favorites:\n\n🎵 Songs:\n");
      } else {
        FormatPlain("favorites", map["songs" := FavoritesBody(songs)]);
      }
    }
  }

  /** The Russian favourites template: a heading, then the songs field. */
  lemma RussianFavoritesTemplate()
    ensures NoBraces("Ваше избранное:\n\n🎵 Песни:\n")
    ensures Russian(FavoritesKey) == "Ваше избранное:\n\n🎵 Песни:\n" + "{" + "songs" + "}" + ""
  {
  }

  /** The English favourites template, laid out as the Russian one. */
  lemma EnglishFavoritesTemplate()
    ensures NoBraces("Your favorites:\n\n🎵 Songs:\n")
    ensures English(FavoritesKey) == "Your favorites:\n\n🎵 Songs:\n" + "{" + "songs" + "}" + ""
  {
  }

  /** `show_favorites`. */
  method ShowFavorites(store: Storage.Store, uid: int) returns (o: Outcome)
    requires store.Valid()
    modifies store
    ensures Registered(store, uid)
    ensures o == FavoritesOutcome(LanguageOf(old(store.users), uid), Storage.UserOrDefault(old(store.users), uid).favoriteSongs)
  {
    var favorites := store.GetFavorites(uid);
    if favorites.songs == [] {
      var text := GetTranslation(store, uid, NoFavoritesKey);
      o := Replied([Answer(text, NoMarkup)]);
    } else {
      var body := FavoritesBody(favorites.songs);
      var template := GetTranslation(store, uid, FavoritesKey);
      var text := Format(template, map["songs" := body]);
      if text.None? {
        o := Raised;
      } else {
        o := Replied([Answer(text.value, NoMarkup)]);
      }
    }
  }

  // ---------------------------------------------------------------------
  // Language
  // ---------------------------------------------------------------------

  /** `change_language`: the picker, under the "language changed" text. */
  method ChangeLanguage(store: Storage.Store, uid: int) returns (reply: Reply)
    requires store.Valid()
    modifies store
    ensures Registered(store, uid)
    ensures reply == Answer(Translate(LanguageOf(old(store.users), uid), LanguageChangedKey), InlineMarkup(Keyboards.LanguageKeyboard()))
  {
    var text := GetTranslation(store, uid, LanguageChangedKey);
    reply := Answer(text, InlineMarkup(Keyboards.LanguageKeyboard()));
  }

  /** `show_main_menu`: the menu prompt with the main keyboard, both in the user's language. */
  method ShowMainMenu(store: Storage.Store, uid: int) returns (reply: Reply)
    requires store.Valid()
    modifies store
    ensures Registered(store, uid)
    ensures var lang := LanguageOf(old(store.users), uid);
      reply == Answer(Translate(lang, ChooseOptionKey), ReplyMarkup(Keyboards.MainLayout(lang)))
  {
    var user := store.GetUser(uid);
    var text := GetTranslation(store, uid, ChooseOptionKey);
    var kb := Keyboards.MainKeyboard(user.language);
    reply := Answer(text, ReplyMarkup(kb));
  }

  /**
   * `set_language`: stores the language named by the callback, confirms in
   * that language and shows the main menu in it.
   */
  method SetLanguage(store: Storage.Store, uid: int, data: string) returns (replies: seq<Reply>)
    requires store.Valid() && StartsWith(data, Keyboards.LanguageCallbackPrefix)
    modifies store
    ensures store.Valid()
    ensures store.users == old(store.users)[uid := Storage.UserOrDefault(old(store.users), uid).(language := CallbackLanguage(data))]
    ensures replies == LanguageReplies(CallbackLanguage(data))
    ensures store.banned == old(store.banned)
    ensures store.keys == old(store.keys) + (if uid in old(store.users) then [] else [Storage.UserKey(uid)])
    ensures store.disk == Storage.Written(Storage.Persist(store.users, store.banned, store.keys))
    ensures store.saves == old(store.saves) + 1
  {
    var lang := CallbackLanguage(data);
    replies := ApplyLanguage(store, uid, lang);
  }

  /** The confirmation and the main menu, both in the newly chosen language. */
  function LanguageReplies(lang: string): seq<Reply> {
    [Notice(Translate(lang, LanguageChangedKey)),
     Answer(Translate(lang, ChooseOptionKey), ReplyMarkup(Keyboards.MainLayout(lang)))]
  }

  /** The body of `set_language` once the language code is read from the callback. */
  method ApplyLanguage(store: Storage.Store, uid: int, lang: string) returns (replies: seq<Reply>)
    requires store.Valid()
    modifies store
    ensures store.Valid()
    ensures store.users == old(store.users)[uid := Storage.UserOrDefault(old(store.users), uid).(language := lang)]
    ensures replies == LanguageReplies(lang)
    ensures store.banned == old(store.banned)
    ensures store.keys == old(store.keys) + (if uid in old(store.users) then [] else [Storage.UserKey(uid)])
    ensures store.disk == Storage.Written(Storage.Persist(store.users, store.banned, store.keys))
    ensures store.saves == old(store.saves) + 1
  {
    store.SetLanguage(uid, lang);
    replies := ConfirmLanguage(store, uid, lang);
  }

  /** The two replies of `set_language` once the store holds `lang` for `uid`: they are in the new language. */
  method ConfirmLanguage(store: Storage.Store, uid: int, ghost lang: string) returns (replies: seq<Reply>)
    requires store.Valid() && uid in store.users && store.users[uid].language == lang
    modifies store
    ensures store.Valid()
    ensures store.users == old(store.users) && store.keys == old(store.keys) && store.banned == old(store.banned)
    ensures store.saves == old(store.saves) && store.disk == old(store.disk)
    ensures replies == LanguageReplies(lang)
  {
    var confirmation := GetTranslation(store, uid, LanguageChangedKey);
    var menu := ShowMainMenu(store, uid);
    replies := [Notice(confirmation), menu];
  }

  /** Choosing English confirms in English. */
  lemma EnglishConfirmsInEnglish()
    ensures Translate(CallbackLanguage(Keyboards.LanguageKeyboard()[1].data), LanguageChangedKey) == "Language changed to English."
  {
    LanguageCallbacksRoundTrip();
  }

  // ---------------------------------------------------------------------
  // Lyrics and favourite songs from the API
  // ---------------------------------------------------------------------

  const LyricsLinkPrefix: string := "Ссылка на текст песни: "

  /** `show_lyrics`' reply to the API's answer: the song's title and a link, or the error notice. */
  function LyricsReply(r: Result<Json, string>, lang: string): Reply {
    var error := Notice(Translate(lang, ErrorKey));
    if r.Err? then error
    else
      var song := Path(r.value, "response", "song");
      if song.None? then error
      else
        var url := Get(song.value, "url");
        var title := Get(song.value, "title");
        if url.None? || title.None? then error
        else
          var u := Display(url.value);
          var t := Display(title.value);
          if u.None? || t.None? then error
          else LyricsText(lang, t.value, LyricsLinkPrefix + u.value)
  }

  /** The lyrics template filled with the title and the link line, or the error notice when it cannot be filled. */
  function LyricsText(lang: string, title: string, link: string): Reply {
    var text := Format(Translate(lang, LyricsKey), map["title" := title, "lyrics" := link]);
    if text.None? then Notice(Translate(lang, ErrorKey)) else Answer(text.value, NoMarkup)
  }

  /** The API's answer for one song. */
  function SongResponse(song: Json): Json {
    JObject(map["response" := JObject(map["song" := song])])
  }

  /** The API's answer carrying a song with just a title and a url. */
  function TitledSong(title: string, url: string): Result<Json, string> {
    Ok(SongResponse(JObject(map["title" := JStr(title), "url" := JStr(url)])))
  }

  /** A lyrics template `heading{title}:\n\n{lyrics}` puts the title, then the link, after the heading. */
  lemma LyricsUnder(title: string, link: string, lang: string, heading: string)
    requires NoBraces(heading)
    requires Translate(lang, LyricsKey) == heading + "{" + "title" + "}" + ":\n\n" + "{" + "lyrics" + "}" + ""
    ensures LyricsText(lang, title, link) == Answer(heading + title + ":\n\n" + link, NoMarkup)
  {
    var args := map["title" := title, "lyrics" := link];
    FormatTwoFields(heading, "title", ":\n\n", "lyrics", "", args);
    assert heading + title + ":\n\n" + link + "" == heading + title + ":\n\n" + link;
  }

  /** A song with a title and a url reaches the template with that title and the link to that url. */
  lemma TitledSongFields(title: string, url: string, lang: string)
    ensures LyricsReply(TitledSong(title, url), lang) == LyricsText(lang, title, LyricsLinkPrefix + url)
  {
    var song := JObject(map["title" := JStr(title), "url" := JStr(url)]);
    assert Path(SongResponse(song), "response", "song") == Some(song);
    assert Get(song, "url") == Some(JStr(url)) && Get(song, "title") == Some(JStr(title));
  }

  /** A song with a title and a url is answered with both, in the user's language. */
  lemma LyricsReplyShows(title: string, url: string, lang: string)
    ensures lang == "ru" ==> LyricsReply(TitledSong(title, url), lang) == Answer("Текст песни " + title + ":\n\n" + LyricsLinkPrefix + url, NoMarkup)
    ensures lang == "en" ==> LyricsReply(TitledSong(title, url), lang) == Answer("Lyrics for " + title + ":\n\n" + LyricsLinkPrefix + url, NoMarkup)
  {
    if lang == "ru" {
      RussianLyricsTemplate();
      TitledSongFields(title, url, lang);
      LyricsUnder(title, LyricsLinkPrefix + url, lang, "Текст песни ");
    } else if lang == "en" {
      EnglishLyricsTemplate();
      TitledSongFields(title, url, lang);
      LyricsUnder(title, LyricsLinkPrefix + url, lang, "Lyrics for ");
    }
  }

  /** The Russian lyrics template: a heading, the title field, a blank line, the lyrics field. */
  lemma RussianLyricsTemplate()
    ensures NoBraces("Текст песни ")
    ensures Russian(LyricsKey) == "Текст песни " + "{" + "title" + "}" + ":\n\n" + "{" + "lyrics" + "}" + ""
  {
  }

  /** The English lyrics template, laid out as the Russian one. */
  lemma EnglishLyricsTemplate()
    ensures NoBraces("Lyrics for ")
    ensures English(LyricsKey) == "Lyrics for " + "{" + "title" + "}" + ":\n\n" + "{" + "lyrics" + "}" + ""
  {
  }

  /** A failed request, or an answer without a song, gives the error notice. */
  lemma LyricsFailureShowsError(r: Result<Json, string>, lang: string)
    requires r.Err? || Path(r.value, "response", "song").None?
    ensures LyricsReply(r, lang) == Notice(Translate(lang, ErrorKey))
  {
  }

  /** `show_lyrics`: a callback that does not parse raises before the request; otherwise `LyricsReply`. */
  method ShowLyrics(store: Storage.Store, api: Services.GeniusApi, uid: int, data: string, outcome: Services.HttpOutcome)
    returns (o: Outcome)
    requires store.Valid() && StartsWith(data, "lyrics_")
    modifies store, api
    ensures LyricsSongId(data).None? ==> o == Raised && unchanged(store) && unchanged(api)
    ensures LyricsSongId(data).Some? ==>
      && Registered(store, uid)
      && o == Replied([LyricsReply(Services.Receive(outcome), LanguageOf(old(store.users), uid))])
      && api.sent == old(api.sent) + [Services.Request(Services.QueryUrl("/songs/" + IntToString(LyricsSongId(data).value), None), Services.Headers(api.token), Services.TimeoutSeconds)]
  {
    var songId := LyricsSongId(data);
    if songId.None? {
      return Raised;
    }
    var r := api.MakeRequest("/songs/" + IntToString(songId.value), None, outcome);
    var user := store.GetUser(uid);
    o := Replied([LyricsReply(r, user.language)]);
  }

  /** The record `add_song_to_favorites` builds from the API's answer; `None` is any exception on the way. */
  function FavoriteFrom(r: Result<Json, string>): Option<Storage.Song> {
    if r.Err? then None
    else
      var song := Path(r.value, "response", "song");
      if song.None? then None
      else
        var id := GetInt(song.value, "id");
        var title := GetStr(song.value, "title");
        var artist := Get(song.value, "primary_artist");
        if id.None? || title.None? || artist.None? then None
        else
          var name := GetStr(artist.value, "name");
          var artistId := GetInt(artist.value, "id");
          if name.None? || artistId.None? then None
          else Some(Storage.Song(id.value, title.value, name.value, artistId.value))
  }

  /** The song object the API returns for a stored favourite. */
  function SongJson(s: Storage.Song): Json {
    JObject(map["id" := JInt(s.id), "title" := JStr(s.title),
                "primary_artist" := JObject(map["name" := JStr(s.artistName), "id" := JInt(s.artistId)])])
  }

  /** Reading a favourite back from the API's answer inverts writing it there. */
  lemma FavoriteFromSongJson(s: Storage.Song)
    ensures FavoriteFrom(Ok(SongResponse(SongJson(s)))) == Some(s)
  {
    var song := SongJson(s);
    assert Path(SongResponse(song), "response", "song") == Some(song);
    var artist := JObject(map["name" := JStr(s.artistName), "id" := JInt(s.artistId)]);
    assert Get(song, "primary_artist") == Some(artist);
  }

  /**
   * `add_song_to_favorites`: a callback that does not parse raises before the
   * request; otherwise one request for the song, then `RecordFavorite` of
   * what was read from the answer.
   */
  method AddSongToFavorites(store: Storage.Store, api: Services.GeniusApi, uid: int, data: string, outcome: Services.HttpOutcome)
    returns (o: Outcome)
    requires store.Valid() && StartsWith(data, "fav_song_")
    modifies store, api
    ensures store.Valid()
    ensures FavoriteSongId(data).None? ==> o == Raised && unchanged(store) && unchanged(api)
    ensures FavoriteSongId(data).Some? ==>
      api.sent == old(api.sent) + [Services.Request(Services.QueryUrl("/songs/" + IntToString(FavoriteSongId(data).value), None), Services.Headers(api.token), Services.TimeoutSeconds)]
    ensures FavoriteSongId(data).Some? ==> Recorded(store, uid, FavoriteFrom(Services.Receive(outcome)), o)
  {
    var songId := FavoriteSongId(data);
    if songId.None? {
      return Raised;
    }
    var r := api.MakeRequest("/songs/" + IntToString(songId.value), None, outcome);
    o := RecordFavorite(store, uid, FavoriteFrom(r));
  }

  /**
   * The store and the reply after the answer was read: with no song, only the
   * lookup and the error notice; with a song, it is added as
   * `add_favorite_song` adds it (writing the new state to the file only when
   * it was new, and leaving the file alone otherwise), and "added" is
   * confirmed even when it was already there.
   */
  twostate predicate Recorded(store: Storage.Store, uid: int, song: Option<Storage.Song>, o: Outcome)
    reads store
  {
    var before := Storage.UserOrDefault(old(store.users), uid);
    if song.None? then
      Registered(store, uid) && o == Replied([Notice(Translate(before.language, ErrorKey))])
    else
      var added := !Storage.HasId(before.favoriteSongs, Storage.SongId, song.value.id);
      && store.Valid()
      && store.users == old(store.users)[uid := before.(favoriteSongs := Storage.AppendNew(before.favoriteSongs, Storage.SongId, song.value))]
      && store.keys == old(store.keys) + (if uid in old(store.users) then [] else [Storage.UserKey(uid)])
      && store.banned == old(store.banned)
      && store.saves == old(store.saves) + (if added then 1 else 0)
      && store.disk == (if added then Storage.Written(Storage.Persist(store.users, store.banned, store.keys)) else old(store.disk))
      && o == Replied([Notice(Translate(before.language, AddedToFavoritesKey))])
  }

  /** The part of `add_song_to_favorites` after the request. */
  method RecordFavorite(store: Storage.Store, uid: int, song: Option<Storage.Song>) returns (o: Outcome)
    requires store.Valid()
    modifies store
    ensures Recorded(store, uid, song, o)
  {
    if song.None? {
      var text := GetTranslation(store, uid, ErrorKey);
      o := Replied([Notice(text)]);
    } else {
      var _ := store.AddFavoriteSong(uid, song.value);
      var text := GetTranslation(store, uid, AddedToFavoritesKey);
      o := Replied([Notice(text)]);
    }
  }

  // ---------------------------------------------------------------------
  // Admin commands
  // ---------------------------------------------------------------------

  /** The text of `cmd_stats` for a user count. */
  function StatsText(total: int): string {
    "📊 Статистика:\n• Пользователей: " + IntToString(total) + "\n• Активных сегодня: " + IntToString(1)
  }

  /** `cmd_stats`: reports `len(storage.data)`. */
  method CmdStats(store: Storage.Store) returns (reply: Reply)
    requires store.Valid()
    ensures reply == Answer(StatsText(|store.users| + (if store.banned.Some? then 1 else 0)), NoMarkup)
  {
    reply := Answer(StatsText(store.DataLen()), NoMarkup);
  }

  const BroadcastText: string := "Привет! Будем что-то искать?\nHello! Are we going to find something new?"
  const BroadcastMessage: string := "📢 Рассылка:\n" + BroadcastText

  function BroadcastReport(count: int): string {
    "✅ Рассылка завершена (отправлено " + IntToString(count) + " пользователям)"
  }

  /** A message sent with `bot.send_message(chat, text)`. */
  datatype Outgoing = Outgoing(chat: int, text: string)

  /**
   * `cmd_broadcast`: walks the dictionary's keys in order, sends the fixed
   * message to every user key and skips "banned"; then reports `len(storage.data)`.
   */
  method CmdBroadcast(store: Storage.Store) returns (sent: seq<Outgoing>, report: Reply)
    requires store.Valid()
    ensures |sent| == |Storage.UserIds(store.keys)|
    ensures forall i :: 0 <= i < |sent| ==> sent[i] == Outgoing(Storage.UserIds(store.keys)[i], BroadcastMessage)
    ensures report == Answer(BroadcastReport(|store.keys|), NoMarkup)
  {
    var keys := store.keys;
    sent := [];
    for i := 0 to |keys|
      invariant |sent| == |Storage.UserIds(keys[..i])|
      invariant forall j :: 0 <= j < |sent| ==> sent[j] == Outgoing(Storage.UserIds(keys[..i])[j], BroadcastMessage)
    {
      UserIdsSnoc(keys[..i], keys[i]);
      assert keys[..i + 1] == keys[..i] + [keys[i]];
      if keys[i].UserKey? {
        sent := sent + [Outgoing(keys[i].id, BroadcastMessage)];
      }
    }
    assert keys[..|keys|] == keys;
    report := Answer(BroadcastReport(store.DataLen()), NoMarkup);
  }

  /** One more key adds its id to the user ids exactly when it is a user key. */
  lemma {:induction false} UserIdsSnoc(keys: seq<Storage.DataKey>, k: Storage.DataKey)
    ensures Storage.UserIds(keys + [k]) == Storage.UserIds(keys) + (if k.UserKey? then [k.id] else [])
    decreases |keys|
  {
    if keys == [] {
      assert [k][1..] == [];
    } else {
      assert (keys + [k])[0] == keys[0] && (keys + [k])[1..] == keys[1..] + [k];
      UserIdsSnoc(keys[1..], k);
      var head := if keys[0].UserKey? then [keys[0].id] else [];
      var tail := if k.UserKey? then [k.id] else [];
      assert Storage.UserIds(keys + [k]) == head + (Storage.UserIds(keys[1..]) + tail);
      assert Storage.UserIds(keys) == head + Storage.UserIds(keys[1..]);
    }
  }

  /** Every user gets the broadcast exactly once, and the "banned" entry gets nothing. */
  lemma BroadcastReachesEachUserOnce(keys: seq<Storage.DataKey>, users: map<int, Storage.UserRecord>, banned: Option<seq<int>>)
    requires Storage.KeysMatch(keys, users, banned)
    ensures forall u :: u in users <==> u in Storage.UserIds(keys)
    ensures Storage.Unique(Storage.UserIds(keys))
    ensures |Storage.UserIds(keys)| == |users|
  {
    Storage.KeysCount(keys, users, banned);
    Storage.UserIdsUnique(keys);
    forall u
      ensures u in users <==> u in Storage.UserIds(keys)
    {
      Storage.UserIdsMember(keys, u);
    }
  }

  /** As written, both counts include the "banned" entry: with one present they are one more than the users reached. */
  lemma BannedEntryCounted(keys: seq<Storage.DataKey>, users: map<int, Storage.UserRecord>, banned: Option<seq<int>>)
    requires Storage.KeysMatch(keys, users, banned) && banned.Some?
    ensures |keys| == |Storage.UserIds(keys)| + 1
    ensures |keys| == |users| + 1
  {
    Storage.KeysCount(keys, users, banned);
  }

  /** The number of users in the dictionary: its keys other than "banned". */
  function UserCount(keys: seq<Storage.DataKey>): nat {
    |Storage.UserIds(keys)|
  }

  /** Counting only user keys gives the number of users, which is the number of broadcast messages sent. */
  lemma UserCountCountsUsers(keys: seq<Storage.DataKey>, users: map<int, Storage.UserRecord>, banned: Option<seq<int>>)
    requires Storage.KeysMatch(keys, users, banned)
    ensures UserCount(keys) == |users|
    ensures StatsText(UserCount(keys)) == StatsText(|users|)
    ensures BroadcastReport(UserCount(keys)) == BroadcastReport(|Storage.UserIds(keys)|)
  {
    Storage.KeysCount(keys, users, banned);
  }
}
