/**
 * The keyboards of bot/keyboards.py, as the labels and callback data they
 * carry: the main reply keyboard, the language picker, and the action
 * buttons under a song or an artist.
 */
module Keyboards {
  import opened Text

  /** A reply keyboard: rows of button labels, and whether the client may shrink it. */
  datatype ReplyKeyboard = ReplyKeyboard(rows: seq<seq<string>>, resize: bool)

  /** A button under a message: its label, and the data sent back when it is pressed. */
  datatype InlineButton = InlineButton(text: string, data: string)

  const RussianMainLabels: seq<string> := ["🎵 Найти песню", "⭐ Избранное", "🌍 Язык", "ℹ️ О проекте"]
  const EnglishMainLabels: seq<string> := ["🎵 Find song", "⭐ Favorites", "🌍 Language", "ℹ️ About"]

  /** The main menu's labels: Russian for "ru", English for every other language. */
  function MainLabels(lang: string): (labels: seq<string>)
    ensures |labels| == 4
    ensures lang == "ru" ==> labels == RussianMainLabels
    ensures lang != "ru" ==> labels == EnglishMainLabels
  {
    if lang == "ru" then RussianMainLabels else EnglishMainLabels
  }

  /** `adjust(n)`: the buttons in order, `n` to a row, the last row possibly shorter. */
  function Chunk<T>(xs: seq<T>, n: nat): seq<seq<T>>
    requires n > 0
    decreases |xs|
  {
    if xs == [] then []
    else if |xs| <= n then [xs]
    else [xs[..n]] + Chunk(xs[n..], n)
  }

  function Flatten<T>(rows: seq<seq<T>>): seq<T>
    decreases |rows|
  {
    if rows == [] then [] else rows[0] + Flatten(rows[1..])
  }

  /** Laying buttons out in rows neither drops, adds nor reorders any of them. */
  lemma {:induction false} ChunkFlatten<T>(xs: seq<T>, n: nat)
    requires n > 0
    ensures Flatten(Chunk(xs, n)) == xs
    decreases |xs|
  {
    if |xs| > n {
      ChunkFlatten(xs[n..], n);
      var rows := Chunk(xs, n);
      assert rows[1..] == Chunk(xs[n..], n);
      assert xs[..n] + xs[n..] == xs;
    } else if xs != [] {
      assert Flatten([xs]) == xs + Flatten([]);
    }
  }

  /** Every row holds between one and `n` buttons, and only the last may hold fewer than `n`. */
  lemma {:induction false} ChunkRows<T>(xs: seq<T>, n: nat)
    requires n > 0
    ensures forall i :: 0 <= i < |Chunk(xs, n)| ==> 1 <= |Chunk(xs, n)[i]| <= n
    ensures forall i :: 0 <= i < |Chunk(xs, n)| - 1 ==> |Chunk(xs, n)[i]| == n
    decreases |xs|
  {
    if |xs| > n {
      ChunkRows(xs[n..], n);
      var rows := Chunk(xs, n);
      var rest := Chunk(xs[n..], n);
      assert rows == [xs[..n]] + rest;
      assert forall i :: 1 <= i < |rows| ==> rows[i] == rest[i - 1];
    }
  }

  /** The main reply keyboard for `lang`: its four labels, two per row, resizable. */
  function MainLayout(lang: string): (kb: ReplyKeyboard)
    ensures Flatten(kb.rows) == MainLabels(lang)
    ensures kb.rows == [MainLabels(lang)[..2], MainLabels(lang)[2..]]
    ensures kb.resize
  {
    var labels := MainLabels(lang);
    ChunkFlatten(labels, 2);
    assert Chunk(labels, 2) == [labels[..2]] + Chunk(labels[2..], 2);
    assert Chunk(labels[2..], 2) == [labels[2..]];
    ReplyKeyboard(Chunk(labels, 2), true)
  }

  /** `get_main_keyboard(lang)`: the four labels are added one by one, then laid out two per row. */
  method MainKeyboard(lang: string) returns (kb: ReplyKeyboard)
    ensures kb == MainLayout(lang)
  {
    var buttons := MainLabels(lang);
    var added: seq<string> := [];
    for i := 0 to |buttons|
      invariant added == buttons[..i]
    {
      added := added + [buttons[i]];
    }
    assert added == buttons;
    kb := ReplyKeyboard(Chunk(added, 2), true);
  }

  const LanguageCallbackPrefix: string := "lang_"

  /** `get_language_keyboard()`: one button per supported language. */
  function LanguageKeyboard(): (kb: seq<InlineButton>)
    ensures |kb| == 2
    ensures kb[0].data == LanguageCallbackPrefix + "ru" && kb[1].data == LanguageCallbackPrefix + "en"
  {
    [InlineButton("🇷🇺 Русский", "lang_ru"), InlineButton("🇬🇧 English", "lang_en")]
  }

  /** The callback data of the four action buttons: a prefix, then `str(id)`. */
  function LyricsCallback(songId: int): string { "lyrics_" + IntToString(songId) }
  function FavoriteSongCallback(songId: int): string { "fav_song_" + IntToString(songId) }
  function ArtistSongsCallback(artistId: int): string { "songs_" + IntToString(artistId) }
  function FavoriteArtistCallback(artistId: int): string { "fav_artist_" + IntToString(artistId) }

  function Data(kb: seq<InlineButton>): seq<string> {
    seq(|kb|, i requires 0 <= i < |kb| => kb[i].data)
  }

  function Labels(kb: seq<InlineButton>): seq<string> {
    seq(|kb|, i requires 0 <= i < |kb| => kb[i].text)
  }

  /** `get_song_actions_keyboard(song_id, lang)`: lyrics, then add to favourites. */
  function SongActionsKeyboard(songId: int, lang: string): (kb: seq<InlineButton>)
    ensures Data(kb) == [LyricsCallback(songId), FavoriteSongCallback(songId)]
  {
    if lang == "ru" then
      [InlineButton("📝 Текст песни", LyricsCallback(songId)), InlineButton("⭐ В избранное", FavoriteSongCallback(songId))]
    else
      [InlineButton("📝 Lyrics", LyricsCallback(songId)), InlineButton("⭐ Add to favorites", FavoriteSongCallback(songId))]
  }

  /** `get_artist_actions_keyboard(artist_id, lang)`: popular songs, then add to favourites. */
  function ArtistActionsKeyboard(artistId: int, lang: string): (kb: seq<InlineButton>)
    ensures Data(kb) == [ArtistSongsCallback(artistId), FavoriteArtistCallback(artistId)]
  {
    if lang == "ru" then
      [InlineButton("🎵 Популярные песни", ArtistSongsCallback(artistId)), InlineButton("⭐ В избранное", FavoriteArtistCallback(artistId))]
    else
      [InlineButton("🎵 Popular songs", ArtistSongsCallback(artistId)), InlineButton("⭐ Add to favorites", FavoriteArtistCallback(artistId))]
  }

  /** Only the labels of the action keyboards depend on the language; the callback data do not. */
  lemma ActionDataIgnoresLanguage(id: int, lang1: string, lang2: string)
    ensures Data(SongActionsKeyboard(id, lang1)) == Data(SongActionsKeyboard(id, lang2))
    ensures Data(ArtistActionsKeyboard(id, lang1)) == Data(ArtistActionsKeyboard(id, lang2))
    ensures lang1 == "ru" && lang2 != "ru" ==> Labels(SongActionsKeyboard(id, lang1)) != Labels(SongActionsKeyboard(id, lang2))
  {
    if lang1 == "ru" && lang2 != "ru" {
      assert Labels(SongActionsKeyboard(id, lang1))[0] == "📝 Текст песни";
      assert Labels(SongActionsKeyboard(id, lang2))[0] == "📝 Lyrics";
      assert "📝 Текст песни"[2] != "📝 Lyrics"[2];
    }
  }
}
