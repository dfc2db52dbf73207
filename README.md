# Music bot core, modelled in Dafny

This project models a music chat bot that searches a lyrics web API. Users
search for songs, keep a list of favourite songs and choose the bot's language.
The model covers:

- the per-user store (`bot/storage.py`): a dictionary from user id to a
  record holding a language and two favourites lists, plus a `"banned"` list
  in the same dictionary. The whole dictionary is rewritten to a JSON file
  after each change;
- the API client (`bot/services.py`): how the request URL and headers are
  built, the session opened on demand, how an HTTP outcome becomes data or an
  exception, and the wrappers that turn every failure into a default value;
- the handlers (`bot/handlers.py`): translation lookup, the parsing of
  callback data, the replies each handler sends, the changes it makes to the
  store and to the search state, and the admin commands;
- the keyboards (`bot/keyboards.py`), as the labels and callback data they carry;
- the configuration (`bot/config.py`): the parse of the admin-id list and `validate`;
- the two administrator gates (`music_genius_bot/middlewares/admin.py` and
  `music_genius_bot/bot.py`), and how `main` routes updates through the
  middlewares and the two routers.

Layout:

- `wrappers.dfy`: `Option` and `Result`.
- `text.dfy`: the Python string operations the code relies on. These are
  `str(int)`, `int(str)`, `split`, `join`, `strip`, `str.format` with named
  fields, and `startswith`.
- `json.dfy`: decoded JSON values, and the lookups and truthiness the code applies to them.
- `storage.dfy`: the class `Store`.
- `services.dfy`: the class `GeniusApi`.
- `keyboards.dfy`, `handlers.dfy`, `config.dfy`, `admin_middleware.dfy` and `bot_main.dfy`.

Things outside the program are parameters:

- The network answers each request with an `HttpOutcome` given by the caller.
- The environment variables are `Option<string>` arguments.
- A handler's replies are returned, in the order it sends them, instead of being sent.

The store records the file it writes as `disk`, and counts full rewrites in
`saves`. This lets the contracts say when a save happens.

## Model

| member | source | states |
|---|---|---|
| Storage.Store.constructor | bot/storage.py:10-24 | the dictionary loaded from the file, with saved ids read back as integers (the corrected reading of the first finding below): empty when the file is missing or not JSON; otherwise the saved users, ban list and key order; no save yet |
| Storage.Store.SaveData | bot/storage.py:26-31 | the whole dictionary, in its key order, overwrites the file; the dictionary is unchanged and one more save is counted |
| Storage.Store.GetUser | bot/storage.py:33-43 | an unknown id gets the default record (`ru`, no favourites), appended last to the key order and not saved; a known id returns its record and changes nothing |
| Storage.Store.PutUser | bot/storage.py:50 | stores a new record for a user already present; nothing else changes |
| Storage.Store.SetLanguage | bot/storage.py:45-51 | only that user's language changes (the user is inserted if unknown); other users, the ban list and the favourites stay; the store is saved; duplicate-free favourites stay so |
| Storage.Store.AddFavoriteSong | bot/storage.py:53-62 | returns true exactly when no stored song has the id; then the song is appended last and the store saved; otherwise the list is unchanged and nothing is saved; duplicate-free lists stay so |
| Storage.Store.AddFavoriteArtist | bot/storage.py:64-71 | the same rule as for songs; saves only when it appends |
| Storage.Store.StoreSong | bot/storage.py:58-62 | for a present user, appends the song and saves exactly when no stored song has its id, and reports which; nothing else changes |
| Storage.Store.StoreArtist | bot/storage.py:68-71 | the same for artists |
| Storage.Store.RemoveFavoriteSong | bot/storage.py:73-79 | keeps exactly the songs whose id differs, in order; saves even when nothing was removed |
| Storage.Store.RemoveFavoriteArtist | bot/storage.py:81-87 | the same for artists |
| Storage.Store.GetFavorites | bot/storage.py:89-97 | the user's two lists; an unknown user is inserted as by `get_user` |
| Storage.Store.BanUser | bot/storage.py:99-107 | the list is created if absent (with "banned" added to the key order); the id is appended and the store saved only if missing |
| Storage.Store.UnbanUser | bot/storage.py:109-115 | with a "banned" entry, every occurrence of the id goes and the store is saved; with none, nothing changes and nothing is saved |
| Storage.Store.DataLen | bot/storage.py:12 | `len(self.data)` is the number of users plus one for a "banned" entry |
| Storage.AppendNewAdds | bot/storage.py:58-59 | after the conditional append the id is present, the old list is a prefix, and the length grows by one exactly when the id was absent |
| Storage.AppendNewKeepsDistinct | bot/storage.py:58-59 | appending only a new id keeps a list free of duplicate ids |
| Storage.AppendNewIdempotent | bot/storage.py:58-59 | adding a second element with the same id changes nothing |
| Storage.WithoutMember | bot/storage.py:78 | the filter keeps an element exactly when it was there and its id differs |
| Storage.WithoutRemoves | bot/storage.py:78 | no element with the removed id survives |
| Storage.WithoutConcat | bot/storage.py:78 | the filter works element by element, so the order is kept |
| Storage.WithoutAbsent | bot/storage.py:78 | removing an id that is not there leaves the list as it was |
| Storage.WithoutDistinctCount | bot/storage.py:78 | in a duplicate-free list holding the id, exactly one element goes |
| Storage.WithoutKeepsDistinct | bot/storage.py:78 | filtering keeps a list duplicate-free |
| Storage.DistinctIdsTail | bot/storage.py:58 | the tail of a duplicate-free list is duplicate-free and lacks the head's id |
| Storage.BanIdempotent | bot/storage.py:103-106 | banning twice is banning once, the id is then present, and no duplicate appears |
| Storage.UnbanRemovesAll | bot/storage.py:114 | unbanning removes every occurrence of the id and keeps every other id |
| Storage.UniqueCard | bot/storage.py:12 | a duplicate-free key order has as many entries as the set of its keys |
| Storage.UserIdsMember | bot/storage.py:12 | a user id is among the keys exactly when its key is in the key order |
| Storage.UserIdsUnique | bot/storage.py:12 | the user ids of a duplicate-free key order are duplicate-free |
| Storage.UserIdsCount | bot/storage.py:12 | every key but "banned" is a user id |
| Storage.KeysCount | bot/storage.py:12 | the number of keys is the number of users, plus one for a "banned" entry |
| Storage.NotBannedName | bot/storage.py:31 | no user id is written as the name "banned" |
| Storage.KeyNameDistinct | bot/storage.py:31 | different keys are written under different names |
| Storage.KeyToIdOfIntToString | bot/storage.py:31 | the name written for a user id reads back as that id |
| Storage.KeyToIdOfBannedName | bot/storage.py:31 | "banned" reads back as no user id |
| Storage.Names | bot/storage.py:31 | one name per key, in the dictionary's order |
| Storage.NamesMember | bot/storage.py:31 | a name is written exactly when the key it stands for is in the dictionary |
| Storage.NamesUnique | bot/storage.py:31 | each name is written once |
| Storage.RecordsMember | bot/storage.py:31 | a record is written under a name exactly when the name is `str` of a stored user id |
| Storage.RecordsLookup | bot/storage.py:31 | each user's record is written under `str(id)` |
| Storage.PersistWellFormed | bot/storage.py:31 | what `json.dump` writes is a well-formed document |
| Storage.ReloadForgetsUsers | bot/storage.py:21-37 | as written, after a save and a reload no user is found again: every id gets the default record |
| Storage.ReloadForgetsLanguage | bot/storage.py:21-37 | concretely: user 42 chose English, and after the reload `get_user(42)` answers Russian |
| Storage.KeyOfKeyName | bot/storage.py:21 | turning a written name back into a key inverts writing it |
| Storage.KeyOfIff | bot/storage.py:21 | a name is read back as a key exactly when it is that key's name |
| Storage.DecodeAllMember | bot/storage.py:21 | when exactly one name decodes to a key, the key is decoded from a list exactly when the name is in it |
| Storage.RestoreKeysMember | bot/storage.py:21 | a key is restored exactly when its name was written |
| Storage.RestoreKeysUnique | bot/storage.py:21 | restored keys are distinct when the names are |
| Storage.RestoreKeysNames | bot/storage.py:21 | reading the names back gives the key order that was written |
| Storage.DecodeAllEncoded | bot/storage.py:21 | decoding elements that each decode to the key at their position gives back those keys, in order |
| Storage.RestoreMatches | bot/storage.py:21 | a loaded document describes a dictionary whose key order lists each key once |
| Storage.RestoreMember | bot/storage.py:21 | a loaded record is found under user `n` exactly when it was written under `str(n)`, and it is that record |
| Storage.RestoreRecordsAt | bot/storage.py:21 | loading a save finds user `n` exactly when `n` was saved, with its record |
| Storage.RestoreRecordsKeys | bot/storage.py:21 | loading a save gives back the same user ids |
| Storage.RestoreRecordsValues | bot/storage.py:21 | loading a save gives back each saved record |
| Storage.RestoreRecords | bot/storage.py:21 | loading a save gives back exactly the users that were saved |
| Storage.RestorePersist | bot/storage.py:21-31 | saving then loading gives back the same users, key order and ban list |
| Storage.SetLanguageKeepsDistinct | bot/storage.py:45-51 | setting a language keeps every favourites list duplicate-free |
| Storage.AddSongKeepsDistinct | bot/storage.py:53-62 | adding a song keeps every favourites list duplicate-free |
| Storage.AddArtistKeepsDistinct | bot/storage.py:64-71 | adding an artist keeps every favourites list duplicate-free |
| Storage.RemoveSongKeepsDistinct | bot/storage.py:73-79 | removing a song keeps every favourites list duplicate-free |
| Storage.RemoveArtistKeepsDistinct | bot/storage.py:81-87 | removing an artist keeps every favourites list duplicate-free |
| Storage.UpdateKeepsDistinct | bot/storage.py:58-59 | replacing one record with a duplicate-free one keeps the whole store duplicate-free |
| Storage.LookupDistinct | bot/storage.py:43 | the record `get_user` hands out is duplicate-free when the store is |
| Storage.InsertKeepsMatch | bot/storage.py:38 | inserting a new user at the end of the key order keeps that order exact |
| Storage.ReplaceKeepsMatch | bot/storage.py:50 | replacing a present user's record leaves the key order exact |
| Services.Headers | bot/services.py:49-53 | the Authorization header is `Bearer <token>`; the User-Agent and Accept headers are fixed |
| Services.Pairs | bot/services.py:46-47 | one `key=value` piece per parameter, in order |
| Services.PiecesJoin | bot/services.py:46-48 | the loop's `k1=v1&…&kn=vn&` is the joined query plus one trailing `&` |
| Services.BuildUrl | bot/services.py:43-48 | with no params the URL is base + endpoint; with an empty dict, cutting the last character removes the `?`, so the URL is the same as with none; otherwise `?k1=v1&…&kn=vn` with no trailing `&` |
| Services.QuerySplits | bot/services.py:44-48 | when no key or value holds `&`, the query splits back into exactly the pieces, in order |
| Services.AmpersandInQuery | bot/services.py:47 | values are not escaped: a search for "rock&roll" sends `q=rock&roll` |
| Services.AmpersandSplitsValue | bot/services.py:47 | that query splits into `q=rock` and a stray `roll` |
| Services.Receive | bot/services.py:55-75 | data are returned exactly for a status of 200 with a JSON body, and they are that body; a timeout becomes "Сервер не ответил вовремя"; every other outcome is an error |
| Services.StatusErrorNamesStatus | bot/services.py:63-66 | the error for a rejected status names the status, so different statuses give different errors |
| Services.SearchHits | bot/services.py:78-85 | on success, `response["response"]["hits"]`; `[]` on any failure or missing member |
| Services.NewReleases | bot/services.py:96-105 | the same for `albums` |
| Services.LyricsMessageShows | bot/services.py:91 | the message shows the title right after its heading, and the url after the title |
| Services.LyricsText | bot/services.py:87-94 | a message is returned exactly when the answer succeeded and its song has a printable title and url, and it is the message for them |
| Services.FailuresGiveDefaults | bot/services.py:63-105 | no wrapper hands out data from a failed request: `[]`, `[]` and `None` |
| Services.LyricsOfSong | bot/services.py:87-91 | a 200 answer with a song's title and url gives the message for them |
| Services.GeniusApi.constructor | bot/services.py:21-24 | the configured token, and no session |
| Services.GeniusApi.Initialize | bot/services.py:27-31 | afterwards the session is open; a new one is created only if there was none or it was closed |
| Services.GeniusApi.Close | bot/services.py:33-36 | afterwards there is no session |
| Services.GeniusApi.MakeRequest | bot/services.py:39-75 | opens a session if needed, sends exactly one request with the URL, headers and 10 s timeout, and returns `Receive` of the outcome |
| Services.GeniusApi.SearchSongs | bot/services.py:78-85 | one `GET /search?q=<query>`, and the hits or `[]` |
| Services.GeniusApi.GetSongLyrics | bot/services.py:87-94 | one `GET /songs/<id>` with no query, and the message or `None` |
| Services.GeniusApi.GetNewReleases | bot/services.py:96-105 | one `GET /albums/new?per_page=<limit>`, with `limit` 10 when it is omitted, and the albums or `[]` |
| Keyboards.MainLabels | bot/keyboards.py:8-21 | the four Russian labels for `ru`, the four English ones for any other language, in order |
| Keyboards.ChunkFlatten | bot/keyboards.py:26 | laying buttons out in rows neither drops, adds nor reorders any |
| Keyboards.ChunkRows | bot/keyboards.py:26 | every row has between one and `n` buttons, and only the last row may have fewer than `n` |
| Keyboards.MainLayout | bot/keyboards.py:23-26 | the main keyboard is the four labels in two rows of two, resizable |
| Keyboards.MainKeyboard | bot/keyboards.py:5-26 | the button-adding loop builds exactly that keyboard |
| Keyboards.LanguageKeyboard | bot/keyboards.py:29-35 | two buttons whose data are `lang_ru` and `lang_en` |
| Keyboards.SongActionsKeyboard | bot/keyboards.py:38-52 | the data are `lyrics_<id>` and `fav_song_<id>` |
| Keyboards.ArtistActionsKeyboard | bot/keyboards.py:55-69 | the data are `songs_<id>` and `fav_artist_<id>` |
| Keyboards.ActionDataIgnoresLanguage | bot/keyboards.py:41-67 | the callback data are the same in every language; the song keyboard's labels differ between `ru` and other languages |
| Handlers.Translate | bot/handlers.py:37-92 | the `ru` table for `ru`, the `en` table for `en`, and the key itself for any other language |
| Handlers.NewUserReadsRussian | bot/handlers.py:90-91 | a user the store does not know is answered from the Russian table |
| Handlers.GetTranslation | bot/handlers.py:86-92 | looks the user up, inserting the default record as `get_user` does, and translates in the user's language |
| Handlers.SplitAfterPrefix | bot/handlers.py:194 | splitting data that starts with `p_` yields `p`, then the pieces of the rest; the same split is used at lines 203 and 224 |
| Handlers.CallbackLanguage | bot/handlers.py:194 | `split("_")[1]` is the text after `lang_` up to the next `_`, and all of it when there is none |
| Handlers.FavoriteSplit | bot/handlers.py:224 | `fav_song_<x>` splits into `fav`, `song` and the pieces of `x` |
| Handlers.TwoPrefixSplit | bot/handlers.py:224 | data starting with `p_q_`, for `p` and `q` without `_`, split into `p`, `q` and the pieces of the rest |
| Handlers.PrefixParts | bot/handlers.py:224 | data starting with `p_q_` start with `p_`, and what follows `p_` starts with `q_` |
| Handlers.LanguageCallbacksRoundTrip | bot/handlers.py:194 | the picker's `lang_ru` and `lang_en` (bot/keyboards.py, lines 31-34) set `ru` and `en` |
| Handlers.CallbackLanguageOfAnyText | bot/handlers.py:194 | any code without `_` is read back unchanged |
| Handlers.PrefixedIdSplit | bot/handlers.py:203 | `p_<id>`, for a `p` without `_`, starts with `p_` and splits into `p` and the printed id |
| Handlers.FavoriteSongCallbackSplit | bot/handlers.py:224 | the favourites button's data start with `fav_song_` and split into `fav`, `song` and the printed id |
| Handlers.LyricsCallbackRoundTrip | bot/handlers.py:203 | the button data `lyrics_<id>` of bot/keyboards.py, line 43, are read back as `id`: `int(("lyrics_" + str(id)).split("_")[1]) == id` for every integer |
| Handlers.FavoriteSongCallbackRoundTrip | bot/handlers.py:224 | the button data `fav_song_<id>` of bot/keyboards.py, line 44, are read back as `id`: `int(("fav_song_" + str(id)).split("_")[2]) == id` for every integer |
| Handlers.FirstWord | bot/handlers.py:106 | the first word is a prefix of the text |
| Handlers.FirstWordNoSpace | bot/handlers.py:106 | a text without white space is its own first word |
| Handlers.CommandText | bot/handlers.py:106 | a text without white space is the command `name` exactly when it is `/name`; used for `start`, `stats` and `broadcast` |
| Handlers.NotCommand | bot/handlers.py:106 | a text starting with neither a space nor `/` matches no command filter |
| Handlers.PrefixStarts | bot/handlers.py:191 | `p + rest` passes `startswith(p)` |
| Handlers.NotPrefix | bot/handlers.py:191 | a text that differs from the prefix at some position fails `startswith` |
| Handlers.MainLabelsReachHandlers | bot/handlers.py:131-183 | each main-keyboard label of bot/keyboards.py, in either language, reaches the handler for that menu entry |
| Handlers.RussianLabelsReachHandlers | bot/handlers.py:131-183 | the Russian labels of bot/keyboards.py, lines 10-13, reach search, favourites, language and about |
| Handlers.EnglishLabelsReachHandlers | bot/handlers.py:131-183 | the English labels of bot/keyboards.py, lines 17-20, reach the same handlers |
| Handlers.MenuTextRoute | bot/handlers.py:106-183 | outside the waiting state, a text that is no command reaches the first menu filter that lists it |
| Handlers.StartsAside | bot/handlers.py:131 | a text whose first character starts none of the labels is none of them |
| Handlers.LabelHeads | bot/handlers.py:131-183 | each menu filter's labels share one first character, different between filters |
| Handlers.SearchLabelRoute | bot/handlers.py:131 | outside the waiting state, a "find song" label reaches `search_song_start` |
| Handlers.AboutLabelRoute | bot/handlers.py:164 | an "about" label reaches `show_about` |
| Handlers.FavoritesLabelRoute | bot/handlers.py:170 | a "favourites" label reaches `show_favorites` |
| Handlers.LanguageLabelRoute | bot/handlers.py:183 | a "language" label reaches `change_language` |
| Handlers.NoAdminMessage | bot/handlers.py:245-281 | a text without white space that is neither `/stats` nor `/broadcast` and does not start with `/ban ` meets no `admin_router` filter |
| Handlers.KeyboardCallbacksReachHandlers | bot/handlers.py:191-221 | the picker's and the song keyboard's callbacks reach their handlers; the artist keyboard's reach none |
| Handlers.SongCallbacksRoute | bot/handlers.py:200-221 | `lyrics_<id>` reaches `show_lyrics`; `fav_song_<id>` reaches `add_song_to_favorites` |
| Handlers.ArtistCallbacksRoute | bot/handlers.py:191-221 | `songs_<id>` and `fav_artist_<id>` match no callback handler |
| Handlers.SongFoundUnder | bot/handlers.py:152 | a template `heading{title} - {artist}` gives the heading, the title, a dash and the artist |
| Handlers.SongFoundShows | bot/handlers.py:152 | the found-song line names the title, then the artist, in the user's language, using the table entries of lines 41 and 56; a language without a table gets the bare key |
| Handlers.SongAnswerOfHit | bot/handlers.py:149-156 | a well-formed hit is answered with its line and buttons carrying its id |
| Handlers.ListHits | bot/handlers.py:149-159 | the loop answers the hits in order until one cannot be answered, then sends the error once and stops: its replies are `AnswerEach` of the hits |
| Handlers.ListingLength | bot/handlers.py:149-159 | the loop sends at most one reply per hit, and at least one reply when there are hits |
| Handlers.SearchRepliesBounds | bot/handlers.py:145-159 | every search sends between one and five replies |
| Handlers.NoHitsSendError | bot/handlers.py:145-147 | no hits, or a failed search, sends exactly the error text |
| Handlers.ListingAllFound | bot/handlers.py:149-156 | when every hit can be answered, each is answered, in order, and nothing else is sent |
| Handlers.ListingFirstFailure | bot/handlers.py:149-159 | at the first hit that cannot be answered, the hits before it have been answered, then the error is sent, and nothing more |
| Handlers.Take | bot/handlers.py:149 | `songs[:5]`: the first `min(5, len)` hits |
| Handlers.CmdStart | bot/handlers.py:106-119 | the greeting with the main keyboard, both in the user's language |
| Handlers.CmdHelp | bot/handlers.py:121-128 | the help text in the user's language |
| Handlers.SearchSongStart | bot/handlers.py:131-135 | enters the waiting state and asks for a title |
| Handlers.SearchSongResult | bot/handlers.py:138-161 | searches once for the message's text and sends `SearchReplies` of the result; the waiting state is cleared on every path |
| Handlers.ShowAbout | bot/handlers.py:164-167 | the about text in the user's language |
| Handlers.FavoriteLines | bot/handlers.py:178 | one `- title by artist` line per song, in order |
| Handlers.FavoritesBodyLines | bot/handlers.py:178 | for a non-empty list the body is the lines joined by newlines, and, when no title or artist holds a newline, it splits back into exactly those lines |
| Handlers.FavoritesUnder | bot/handlers.py:179 | a heading template with the one field `{songs}` puts the list after the heading |
| Handlers.FavoritesShows | bot/handlers.py:175-180 | an empty list gets `no_favorites`; otherwise the list under the heading of the user's language; it never raises |
| Handlers.ShowFavorites | bot/handlers.py:170-180 | the reply for the user's songs, as `FavoritesOutcome` |
| Handlers.ChangeLanguage | bot/handlers.py:183-189 | the language picker under the "language changed" text of the current language |
| Handlers.ShowMainMenu | bot/handlers.py:95-103 | the menu prompt and the main keyboard, both in the user's language |
| Handlers.SetLanguage | bot/handlers.py:191-197 | stores the language named by the callback (and nothing else), saves once so that the file holds the new state, confirms in that language and shows the menu in it |
| Handlers.ApplyLanguage | bot/handlers.py:195-197 | the same once the code is read from the callback: the file then holds the new state |
| Handlers.ConfirmLanguage | bot/handlers.py:196-197 | once the new language is stored, the confirmation and the menu are in it, and the store is not changed or saved again |
| Handlers.EnglishConfirmsInEnglish | bot/handlers.py:194-196 | choosing English confirms in English, with the text of line 59 |
| Handlers.TitledSongFields | bot/handlers.py:205-214 | the title and the `url` of the answer's song reach the lyrics template, the url behind the link prefix |
| Handlers.LyricsUnder | bot/handlers.py:211-214 | the lyrics template puts the title, then the link, after its heading |
| Handlers.LyricsReplyShows | bot/handlers.py:205-215 | a song with a title and a url is answered with both, in the user's language, using the table entries of lines 47 and 62 |
| Handlers.LyricsFailureShowsError | bot/handlers.py:216-218 | a failed request, or an answer without a song, gives the error notice |
| Handlers.ShowLyrics | bot/handlers.py:200-218 | callback data that parse to no integer raise before any request and leave everything unchanged; otherwise one `GET /songs/<id>` and the reply for its answer |
| Handlers.FavoriteFromSongJson | bot/handlers.py:228-237 | reading a favourite back from the API's answer inverts writing it there |
| Handlers.AddSongToFavorites | bot/handlers.py:221-242 | callback data that parse to no integer raise before any request; otherwise one `GET /songs/<id>`, and then `RecordFavorite` of the song read from it, including what the file then holds |
| Handlers.RecordFavorite | bot/handlers.py:228-242 | with no song, only the default record may be inserted, the file is untouched and the error notice is sent; with one, it is added as `add_favorite_song` adds it, the file then holding the new state when it was new and left as it was otherwise, and "added" is confirmed even when it was already there |
| Handlers.CmdStats | bot/handlers.py:245-257 | reports `len(storage.data)`: the users plus one for a "banned" entry |
| Handlers.CmdBroadcast | bot/handlers.py:260-277 | one message per user key, in the dictionary's order, none to "banned"; then reports `len(storage.data)` |
| Handlers.UserIdsSnoc | bot/handlers.py:270-271 | one more key adds its id exactly when it is a user key |
| Handlers.BroadcastReachesEachUserOnce | bot/handlers.py:270-275 | every user gets the broadcast exactly once |
| Handlers.BannedEntryCounted | bot/handlers.py:250 | as written, with a "banned" entry both counts, this one and the one at line 277, are one more than the users reached |
| Handlers.UserCountCountsUsers | bot/handlers.py:250 | counting only user keys gives the number of users, which is the number of broadcast messages of lines 270-277 |
| Config.ParseIdsPieces | bot/config.py:10 | the comprehension succeeds exactly when every piece is an integer literal, and then holds their values in order |
| Config.AllPresentIff | bot/config.py:10 | the comprehension gives a list exactly when no element raises |
| Config.AdminIds | bot/config.py:10 | `[]` when the variable is unset or empty; otherwise the integers of the comma-separated pieces, in order, or the `ValueError` of a bad piece |
| Config.IdStrings | bot/config.py:10 | `str` of each id, in order |
| Config.ParseIdStrings | bot/config.py:10 | parsing the printed ids gives the ids back |
| Config.AdminIdsRoundTrip | bot/config.py:10 | a non-empty id list written as `1,2,3` reads back as the same list |
| Config.Validate | bot/config.py:13-19 | a missing or empty bot token raises first; then the lyrics token; an empty admin list only logs a warning |
| Config.Load | bot/config.py:8-22 | a malformed id list fails at import; otherwise the settings as read, and startup succeeds exactly when both tokens are present |
| Config.AdminsNeverRequired | bot/config.py:18-19 | with both tokens, an absent or empty admin list still starts the bot, with one warning |
| Config.BotTokenReportedFirst | bot/config.py:14-17 | with both tokens missing, the bot-token message is the one raised |
| AdminGate.Gate | music_genius_bot/middlewares/admin.py:6-14 | an empty list logs an error and calls the handler; otherwise only a listed user reaches the handler, whose result is passed on; others get "🔒 Доступ запрещён!" |
| AdminGate.GateFailsOpen | music_genius_bot/middlewares/admin.py:7-13 | someone is refused exactly when there is a list they are not on |
| AdminGate.GateIgnoresHandler | music_genius_bot/middlewares/admin.py:6-14 | the decision depends on the sender's id and the list alone |
| BotMain.LogLine | music_genius_bot/bot.py:18 | `User <id> sent: <text>`, and `None` for a message without text |
| BotMain.Logging | music_genius_bot/bot.py:11-19 | logs one line and always calls the handler, passing its result on |
| BotMain.StrictGate | music_genius_bot/bot.py:22-32 | only a listed sender reaches the handler, so an empty list lets nobody through; others get "🚫 Доступ запрещён!" |
| BotMain.GatesDisagree | music_genius_bot/bot.py:29-31 | this gate and the one of music_genius_bot/middlewares/admin.py, lines 7-9, disagree exactly when the admin list is empty |
| BotMain.FindHandler | music_genius_bot/bot.py:57-58 | `admin_router`'s handlers are tried before `router`'s |
| BotMain.DispatchAsWritten | music_genius_bot/bot.py:53-58 | an update no handler matches runs no middleware; every matched update is logged (messages only) and passes the strict gate |
| BotMain.StartNotAdmin | bot/handlers.py:245-280 | `/start` is neither `/stats` nor `/broadcast` and does not start with `/ban ` |
| BotMain.StartHasNoSpace | bot/handlers.py:106 | `/start` holds no white space, so it is its own first word |
| BotMain.StartReachesRouter | bot/handlers.py:106 | outside the waiting state, `/start` reaches `cmd_start` |
| BotMain.StartIsNoAdminCommand | music_genius_bot/bot.py:57-58 | `/start` matches none of the admin filters and reaches `cmd_start` (bot/handlers.py, line 106) |
| BotMain.NonAdminCannotStart | music_genius_bot/bot.py:53-55 | as written, a user missing from a list cannot even `/start` |
| BotMain.Dispatch | music_genius_bot/bot.py:53-58 | with the gate in front of `admin_router` only, a refusal happens exactly for an admin command from an unlisted sender |
| BotMain.DispatchSeparatesAdmins | music_genius_bot/bot.py:53-58 | then everyone reaches the user handlers, and only administrators reach the admin ones |
| BotMain.DispatchesAgreeForAdmins | music_genius_bot/bot.py:53-58 | both dispatches treat administrators alike |
| BotMain.WaitingText | music_genius_bot/bot.py:57-58 | while a title is awaited, a text that is no command goes to the search handlers of bot/handlers.py, lines 131-138 |
| BotMain.WaitingTakesSearch | bot/handlers.py:131 | while a title is awaited, a "find song" label still starts a new search |
| BotMain.WaitingTakesAside | bot/handlers.py:138 | while a title is awaited, a favourites, language or about label is taken as the title |
| BotMain.WaitingTakesMenuButtons | bot/handlers.py:138-189 | while a title is awaited, every menu button except "find song" is taken as the title |

## Left out

- I/O is not modelled: the file, the network, the messaging platform and the
  logging output. The file is the `disk` field; the network is an
  `HttpOutcome` parameter; replies are returned values; log lines are returned
  where a decision depends on them.
- Concurrency and `async`/`await` are not modelled. Each handler runs to completion in one step.
- Locale file writing in `load_locales` (bot/handlers.py:69-74), logging
  setup, dotenv loading and `main`'s polling, webhook deletion and session
  closing are plumbing and are left out.
- The unused `cache` dictionary of the API client (bot/services.py:24) is left out.
- `cmd_ban` never calls `ban_user`. Only its route is modelled (`BanRoute`),
  not its reply or the `ValueError` of its `int()`.
- `songs_<id>` and `fav_artist_<id>` have no handler in the source.
  `ArtistCallbacksRoute` shows that they match nothing.
- JSON values are only read as the handlers need them:
  - `Handlers.FavoriteFrom`, which builds the stored favourite, needs a
    string title and artist name and integer ids, and otherwise takes the
    error path;
  - the found-song and lyrics replies print any scalar title, artist or url,
    as `str.format` does, and need an integer id for the song's buttons;
  - lists and objects, whose `repr` is not modelled, take the error path.
  
  Floating-point numbers are not modelled.
- `Text.ParseInt` is `int()` without underscores and without non-ASCII
  digits. It strips, and `Handlers.FirstWord` splits at, the white space of
  `str.isspace` (`Text.IsSpace`).
  `Handlers.IsCommand` ignores `/command@botname` mentions and prefixes
  other than `/`.
- Callback data are taken to be present. `F.data` of `None` is not modelled.
- The inline keyboards are ordered buttons. Builder internals and row layout
  are not modelled, except for the main keyboard's two-per-row `adjust(2)`.
- `Services.GeniusApi`: the session of aiohttp can be closed from outside. Only the states none, open and closed are modelled.
- The store is modelled as the one dictionary the handlers use. The
  handlers' mutable `dict` records are values, so aliasing between a record
  handed out and the dictionary is not modelled. Every write goes through a
  store method.
- `Handlers.CmdStart`: the `except` branch that retries without a keyboard
  when `message.answer` raises is not modelled, because sending is not modelled.
- The translation tables are total over one `Key` type, so the Russian and
  English tables define the same key set by construction. Keys the handlers
  never pass are not modelled.
- Storage.Store.constructor: loads with the corrected reading of the first
  finding below, so saved ids are integers again. The dictionary `json.load`
  leaves as written, whose saved ids stay strings that `get_user` never
  finds, is `Storage.AsWrittenReload`. Every Store contract about a store
  read back from the file therefore describes the corrected program. That
  includes `DataLen`, `CmdStats`, `CmdBroadcast` and
  `BroadcastReachesEachUserOnce`. As written, a reloaded user who writes
  again is inserted a second time, under the integer key, and counted twice.
- Any status other than 200 is an error, as the code does, not only non-2xx statuses.

## Findings

| source | as written | input that shows it | evidently intended | confidence | as-written member | corrected member |
|---|---|---|---|---|---|---|
| bot/storage.py:21, bot/storage.py:37 | `json.load` gives back the user ids as string keys, and `get_user` looks for the integer key | user 42 sets English; the bot restarts; `get_user(42)` finds nothing and answers in Russian | user ids survive a restart | high, not executed | Storage.ReloadForgetsLanguage | Storage.RestorePersist |
| bot/handlers.py:250, bot/handlers.py:277 | `len(storage.data)` counts the "banned" entry as a user | a store with one user and a ban list reports 2 users, and "sent to 2 users" after one message | the number of users, which is the number of messages sent | high, not executed | Handlers.BannedEntryCounted | Handlers.UserCountCountsUsers |
| music_genius_bot/bot.py:53-55 | the strict administrator gate is registered on every message and every callback query | admin list `[1]`, user 2 sends `/start` and is refused | only the admin-only commands (stats, broadcast, ban) are gated | medium, not executed | BotMain.NonAdminCannotStart | BotMain.DispatchSeparatesAdmins |
