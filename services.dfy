/**
 * The lyrics-API client of bot/services.py: how `_make_request` builds the
 * request URL and headers, how it turns an HTTP outcome into data or an
 * exception, the session it opens on demand, and the three wrappers that turn
 * any failure into a default value.
 *
 * The network is not modelled: each request is answered by an `HttpOutcome`
 * passed in by the caller, and the requests the client sends are recorded in
 * `sent`.
 */
module Services {
  import opened Wrappers
  import opened Text
  import opened Json

  const BaseUrl: string := "https://api.genius.com"
  const UserAgent: string :=
    "Mozilla/5.0 (Macintosh; Intel Mac OS X 10_15_7) AppleWebKit/537.36 (KHTML, like Gecko) Chrome/120.0.0.0 Safari/537.36"
  /** The total timeout of a request, in seconds. */
  const TimeoutSeconds: nat := 10
  /** The `limit` of `get_new_releases` when the caller gives none. */
  const DefaultReleaseLimit: int := 10

  type Header = (string, string)

  /** The value of the first header called `name`. */
  function HeaderValue(headers: seq<Header>, name: string): Option<string>
    decreases |headers|
  {
    if headers == [] then None
    else if headers[0].0 == name then Some(headers[0].1)
    else HeaderValue(headers[1..], name)
  }

  /** The headers of every request. */
  function Headers(token: string): (h: seq<Header>)
    ensures HeaderValue(h, "Authorization") == Some("Bearer " + token)
    ensures HeaderValue(h, "User-Agent") == Some(UserAgent)
    ensures HeaderValue(h, "Accept") == Some("application/json")
    ensures |h| == 3
  {
    var h := [("Authorization", "Bearer " + token), ("User-Agent", UserAgent), ("Accept", "application/json")];
    assert HeaderValue(h[2..], "Accept") == Some("application/json");
    assert "User-Agent"[0] != "Accept"[0] && "Authorization"[1] != "Accept"[1];
    assert "Authorization"[0] != "User-Agent"[0];
    h
  }

  // ---------------------------------------------------------------------------
  // The request URL

  /** One query parameter, its value already formatted with `str()`. */
  type Param = (string, string)

  function Pair(p: Param): string {
    p.0 + "=" + p.1
  }

  /** The `key=value` pieces of a query, in parameter order. */
  function Pairs(ps: seq<Param>): (pieces: seq<string>)
    ensures |pieces| == |ps|
    ensures forall i :: 0 <= i < |ps| ==> pieces[i] == Pair(ps[i])
  {
    seq(|ps|, i requires 0 <= i < |ps| => Pair(ps[i]))
  }

  /** What `_make_request` intends to send: `key=value` pieces joined by `&`, nothing escaped. */
  function QueryString(ps: seq<Param>): string {
    Join("&", Pairs(ps))
  }

  /**
   * The URL of a request. With no parameters it is the base and the endpoint;
   * an empty parameter dictionary gives the same URL, since the trailing
   * character that is cut off is then the `?` itself.
   */
  function QueryUrl(endpoint: string, params: Option<seq<Param>>): string {
    match params
    case None => BaseUrl + endpoint
    case Some(ps) => if ps == [] then BaseUrl + endpoint else BaseUrl + endpoint + "?" + QueryString(ps)
  }

  /** The text the loop has appended after `?`: each `key=value&` in turn. */
  function Pieces(ps: seq<Param>): string
    decreases |ps|
  {
    if ps == [] then "" else Pieces(ps[..|ps| - 1]) + Pair(ps[|ps| - 1]) + "&"
  }

  /** The loop's pieces are the joined query with one trailing `&`. */
  lemma {:induction false} PiecesJoin(ps: seq<Param>)
    requires ps != []
    ensures Pieces(ps) == QueryString(ps) + "&"
    decreases |ps|
  {
    var init := ps[..|ps| - 1];
    if init != [] {
      PiecesJoin(init);
      assert Pairs(ps) == Pairs(init) + [Pair(ps[|ps| - 1])];
      JoinSnoc("&", Pairs(init), Pair(ps[|ps| - 1]));
    } else {
      assert Pairs(ps) == [Pair(ps[0])];
    }
  }

  /** `_make_request`'s URL loop: append `?`, then `key=value&` per parameter, then cut the last character. */
  method BuildUrl(endpoint: string, params: Option<seq<Param>>) returns (url: string)
    ensures url == QueryUrl(endpoint, params)
  {
    url := BaseUrl + endpoint;
    if params.Some? {
      var ps := params.value;
      url := url + "?";
      var i := 0;
      while i < |ps|
        invariant 0 <= i <= |ps|
        invariant url == BaseUrl + endpoint + "?" + Pieces(ps[..i])
      {
        assert ps[..i + 1][..i] == ps[..i];
        url := url + Pair(ps[i]) + "&";
        i := i + 1;
      }
      assert ps[..|ps|] == ps;
      if ps != [] {
        PiecesJoin(ps);
        assert url == BaseUrl + endpoint + "?" + QueryString(ps) + "&";
      }
      url := url[..|url| - 1];
    }
  }

  /**
   * When no key or value contains `&`, the query part of the URL splits back
   * into exactly the `key=value` pieces, in order.
   */
  lemma QuerySplits(endpoint: string, ps: seq<Param>)
    requires ps != []
    requires forall i :: 0 <= i < |ps| ==> '&' !in ps[i].0 && '&' !in ps[i].1
    ensures QueryUrl(endpoint, Some(ps)) == BaseUrl + endpoint + "?" + QueryString(ps)
    ensures Split(QueryString(ps), '&') == Pairs(ps)
  {
    var pieces := Pairs(ps);
    forall i | 0 <= i < |pieces|
      ensures '&' !in pieces[i]
    {
      assert pieces[i] == ps[i].0 + "=" + ps[i].1;
    }
    SplitJoin(pieces, '&');
  }

  /** Values are not escaped: a search for "rock&roll" sends the query `q=rock&roll`. */
  lemma AmpersandInQuery()
    ensures QueryString([("q", "rock&roll")]) == "q=rock&roll"
  {
    var ps := [("q", "rock&roll")];
    assert Pair(ps[0]) == "q=rock&roll";
    assert Pairs(ps) == [Pair(ps[0])];
  }

  /** ... which the server reads as a `q` of "rock" and a stray piece "roll". */
  lemma AmpersandSplitsValue()
    ensures Split("q=rock&roll", '&') == ["q=rock", "roll"]
  {
    var a := "q=rock";
    var b := "roll";
    assert '&' !in a;
    assert '&' !in b;
    SplitAtFirst(a, b, '&');
    SplitWithoutSeparator(b, '&');
    assert a + ['&'] + b == "q=rock&roll";
  }

  // ---------------------------------------------------------------------------
  // Outcomes

  /** A request as it leaves the client. */
  datatype Request = Request(url: string, headers: seq<Header>, timeout: nat)

  /** The body of a response: JSON, or text that `response.json()` rejects. */
  datatype Body = Decoded(value: Json) | Undecodable(detail: string)

  /** What the network does with a request. */
  datatype HttpOutcome =
    | Response(status: int, body: Body)
    | TimedOut
    | Failed(detail: string)

  const TimeoutMessage: string := "Сервер не ответил вовремя"
  const ApiErrorPrefix: string := "Ошибка API: "

  /**
   * The result of `_make_request`: the decoded body of a 200 response, or the
   * message of the exception it raises. A status other than 200 raises
   * "API Error: <status>", which the generic handler wraps once more.
   */
  function Receive(o: HttpOutcome): (r: Result<Json, string>)
    ensures r.Ok? <==> o.Response? && o.status == 200 && o.body.Decoded?
    ensures r.Ok? ==> r.value == o.body.value
    ensures o.TimedOut? ==> r == Err(TimeoutMessage)
  {
    match o
    case Response(status, body) =>
      if status != 200 then Err(ApiErrorPrefix + "API Error: " + IntToString(status))
      else (
        match body
        case Decoded(v) => Ok(v)
        case Undecodable(detail) => Err(ApiErrorPrefix + detail))
    case TimedOut => Err(TimeoutMessage)
    case Failed(detail) => Err(ApiErrorPrefix + detail)
  }

  /** A rejected status is reported with its number, and no other outcome gives the same message. */
  lemma StatusErrorNamesStatus(o: HttpOutcome, p: HttpOutcome)
    requires o.Response? && o.status != 200 && p.Response? && p.status != 200
    requires Receive(o) == Receive(p)
    ensures o.status == p.status
  {
    var prefix := ApiErrorPrefix + "API Error: ";
    assert Receive(o).error == prefix + IntToString(o.status);
    assert Receive(p).error == prefix + IntToString(p.status);
    assert IntToString(o.status) == Receive(o).error[|prefix|..];
    assert IntToString(p.status) == Receive(p).error[|prefix|..];
    IntToStringInjective(o.status, p.status);
  }

  /** `search_songs`: `response["response"]["hits"]`, or `[]` when anything fails. */
  function SearchHits(r: Result<Json, string>): (hits: Json)
    ensures r.Ok? && Path(r.value, "response", "hits").Some? ==> hits == Path(r.value, "response", "hits").value
    ensures r.Err? || Path(r.value, "response", "hits").None? ==> hits == JList([])
  {
    match r
    case Ok(data) => Path(data, "response", "hits").GetOr(JList([]))
    case Err(_) => JList([])
  }

  /** `get_new_releases`: `data["response"]["albums"]`, or `[]` when anything fails. */
  function NewReleases(r: Result<Json, string>): (albums: Json)
    ensures r.Ok? && Path(r.value, "response", "albums").Some? ==> albums == Path(r.value, "response", "albums").value
    ensures r.Err? || Path(r.value, "response", "albums").None? ==> albums == JList([])
  {
    match r
    case Ok(data) => Path(data, "response", "albums").GetOr(JList([]))
    case Err(_) => JList([])
  }

  const LyricsHead: string := "Текст песни "
  const LyricsMiddle: string := ":\n\nURL: "
  const LyricsTail: string := "\n\nПримечание: Для получения полного текста посетите страницу песни на Genius."

  /** The message `get_song_lyrics` builds from a song's title and url. */
  function LyricsMessage(title: string, url: string): string {
    LyricsHead + title + LyricsMiddle + url + LyricsTail
  }

  /** The message shows the title right after its heading, and the url after the title. */
  lemma LyricsMessageShows(title: string, url: string)
    ensures var m := LyricsMessage(title, url);
      var t := |LyricsHead|;
      var u := t + |title| + |LyricsMiddle|;
      && u + |url| <= |m|
      && m[..t] == LyricsHead
      && m[t..t + |title|] == title
      && m[u..u + |url|] == url
  {
    var m := LyricsMessage(title, url);
    var t := |LyricsHead|;
    var u := t + |title| + |LyricsMiddle|;
    assert m == LyricsHead + title + LyricsMiddle + url + LyricsTail;
    assert m[t..t + |title|] == title;
    assert m[u..u + |url|] == url;
  }

  /** The answer succeeded and holds a song whose title and url can both be printed. */
  predicate PrintableSong(r: Result<Json, string>) {
    && r.Ok? && Path(r.value, "response", "song").Some?
    && var song := Path(r.value, "response", "song").value;
      && Get(song, "title").Some? && Get(song, "url").Some?
      && Display(Get(song, "title").value).Some? && Display(Get(song, "url").value).Some?
  }

  /**
   * `get_song_lyrics`: the message for `data["response"]["song"]`, or `None`
   * when the request fails or the song lacks a title or url.
   */
  function LyricsText(r: Result<Json, string>): (text: Option<string>)
    ensures text.Some? <==> PrintableSong(r)
    ensures text.Some? ==> r.Ok? && Path(r.value, "response", "song").Some?
    ensures text.Some? ==>
      var song := Path(r.value, "response", "song").value;
      && Get(song, "title").Some? && Get(song, "url").Some?
      && Display(Get(song, "title").value).Some? && Display(Get(song, "url").value).Some?
      && text.value == LyricsMessage(Display(Get(song, "title").value).value, Display(Get(song, "url").value).value)
  {
    match r
    case Err(_) => None
    case Ok(data) =>
      match Path(data, "response", "song")
      case None => None
      case Some(song) =>
        match (Get(song, "title"), Get(song, "url"))
        case (Some(title), Some(url)) => (
          match (Display(title), Display(url))
          case (Some(t), Some(u)) => Some(LyricsMessage(t, u))
          case _ => None)
        case _ => None
  }

  /** No wrapper ever hands out data from a response whose status is not 200. */
  lemma FailuresGiveDefaults(o: HttpOutcome)
    requires !(o.Response? && o.status == 200 && o.body.Decoded?)
    ensures SearchHits(Receive(o)) == JList([])
    ensures NewReleases(Receive(o)) == JList([])
    ensures LyricsText(Receive(o)) == None
  {
  }

  /** A 200 response with a song that has string title and url gives the message for them. */
  lemma LyricsOfSong(title: string, url: string)
    ensures var song := JObject(map["title" := JStr(title), "url" := JStr(url)]);
      var data := JObject(map["response" := JObject(map["song" := song])]);
      LyricsText(Receive(Response(200, Decoded(data)))) == Some(LyricsMessage(title, url))
  {
  }

  // ---------------------------------------------------------------------------
  // The client object

  /** `self.session`: none yet, an open `aiohttp` session, or one that has been closed. */
  datatype Session = NoSession | Open | Closed

  class GeniusApi {
    const token: string
    var session: Session
    /** How many sessions have been created. */
    var sessionsCreated: nat
    /** The requests sent so far, oldest first. */
    var sent: seq<Request>

    /** `GeniusAPI()`: the token from the configuration, and no session. */
    constructor (token: string)
      ensures this.token == token
      ensures session == NoSession && sessionsCreated == 0 && sent == []
    {
      this.token := token;
      session := NoSession;
      sessionsCreated := 0;
      sent := [];
    }

    /** `initialize`: a new session only when there is none or it is closed. */
    method Initialize()
      modifies this
      ensures session == Open
      ensures sessionsCreated == old(sessionsCreated) + (if old(session) == Open then 0 else 1)
      ensures sent == old(sent)
    {
      if session != Open {
        session := Open;
        sessionsCreated := sessionsCreated + 1;
      }
    }

    /** `close`: any session, open or already closed, is closed and dropped. */
    method Close()
      modifies this
      ensures session == NoSession
      ensures sessionsCreated == old(sessionsCreated) && sent == old(sent)
    {
      session := NoSession;
    }

    /** `_make_request`: opens a session if needed, sends one request, and reports the outcome. */
    method MakeRequest(endpoint: string, params: Option<seq<Param>>, outcome: HttpOutcome)
      returns (r: Result<Json, string>)
      modifies this
      ensures r == Receive(outcome)
      ensures session == Open
      ensures sessionsCreated == old(sessionsCreated) + (if old(session) == Open then 0 else 1)
      ensures sent == old(sent) + [Request(QueryUrl(endpoint, params), Headers(token), TimeoutSeconds)]
    {
      if session != Open {
        Initialize();
      }
      var url := BuildUrl(endpoint, params);
      sent := sent + [Request(url, Headers(token), TimeoutSeconds)];
      r := Receive(outcome);
    }

    /** `search_songs(query)`: `GET /search?q=<query>`. */
    method SearchSongs(query: string, outcome: HttpOutcome) returns (hits: Json)
      modifies this
      ensures hits == SearchHits(Receive(outcome))
      ensures session == Open
      ensures sessionsCreated == old(sessionsCreated) + (if old(session) == Open then 0 else 1)
      ensures sent == old(sent) + [Request(QueryUrl("/search", Some([("q", query)])), Headers(token), TimeoutSeconds)]
    {
      var r := MakeRequest("/search", Some([("q", query)]), outcome);
      hits := SearchHits(r);
    }

    /** `get_song_lyrics(song_id)`: `GET /songs/<id>`, with no parameters. */
    method GetSongLyrics(songId: int, outcome: HttpOutcome) returns (text: Option<string>)
      modifies this
      ensures text == LyricsText(Receive(outcome))
      ensures session == Open
      ensures sessionsCreated == old(sessionsCreated) + (if old(session) == Open then 0 else 1)
      ensures sent == old(sent) + [Request(BaseUrl + "/songs/" + IntToString(songId), Headers(token), TimeoutSeconds)]
    {
      var r := MakeRequest("/songs/" + IntToString(songId), None, outcome);
      assert BaseUrl + ("/songs/" + IntToString(songId)) == BaseUrl + "/songs/" + IntToString(songId);
      text := LyricsText(r);
    }

    /** `get_new_releases(limit)`: `GET /albums/new?per_page=<limit>`, with `limit` 10 when the caller omits it. */
    method GetNewReleases(outcome: HttpOutcome, limit: int := DefaultReleaseLimit) returns (albums: Json)
      modifies this
      ensures albums == NewReleases(Receive(outcome))
      ensures session == Open
      ensures sessionsCreated == old(sessionsCreated) + (if old(session) == Open then 0 else 1)
      ensures sent == old(sent) + [Request(QueryUrl("/albums/new", Some([("per_page", IntToString(limit))])), Headers(token), TimeoutSeconds)]
    {
      var r := MakeRequest("/albums/new", Some([("per_page", IntToString(limit))]), outcome);
      albums := NewReleases(r);
    }
  }
}
