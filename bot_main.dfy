/**
 * The dispatcher set up by `main` in music_genius_bot/bot.py: its logging
 * middleware and its own administrator gate, registered on every message and
 * every callback query, in front of `admin_router` and then `router`.
 *
 * The dispatcher's middlewares are inner middlewares: they run only once a
 * handler's filters have matched, around that handler.
 */
module BotMain {
  import opened Wrappers
  import opened Text
  import AdminGate
  import Handlers
  import Keyboards

  /** `LoggingMiddleware`'s line for a message; a message without text prints `None`. */
  function LogLine(uid: int, text: Option<string>): (line: string)
    ensures text.Some? ==> line == "User " + IntToString(uid) + " sent: " + text.value
    ensures text.None? ==> line == "User " + IntToString(uid) + " sent: None"
  {
    "User " + IntToString(uid) + " sent: " + (if text.Some? then text.value else "None")
  }

  /** `LoggingMiddleware.__call__`: logs one line, then always calls the handler and passes its result on. */
  function Logging<R>(uid: int, text: Option<string>, result: R): (g: AdminGate.Gated<R>)
    ensures g == AdminGate.Called(result, [LogLine(uid, text)])
  {
    AdminGate.Called(result, [LogLine(uid, text)])
  }

  const DenialText: string := "🚫 Доступ запрещён!"

  /** This file's `AdminMiddleware.__call__`: only a sender on the list gets through, so an empty list lets nobody through. */
  function StrictGate<R>(adminIds: seq<int>, uid: int, result: R): (g: AdminGate.Gated<R>)
    ensures g.Called? <==> uid in adminIds
    ensures g.Called? ==> g == AdminGate.Called(result, [])
    ensures g.Denied? ==> g.answer == DenialText
  {
    if uid !in adminIds then AdminGate.Denied(DenialText) else AdminGate.Called(result, [])
  }

  /** The two gates decide alike on every non-empty list, and oppositely for every sender when the list is empty. */
  lemma GatesDisagree<R>(adminIds: seq<int>, uid: int, result: R)
    ensures AdminGate.Gate(adminIds, uid, result).Called? != StrictGate(adminIds, uid, result).Called? <==> adminIds == []
  {
  }

  /** An update as the dispatcher sees it: who sent it, and its text or callback data. */
  datatype Update = MessageUpdate(uid: int, text: Option<string>) | CallbackUpdate(uid: int, data: string)

  function Sender(u: Update): int {
    match u
    case MessageUpdate(uid, _) => uid
    case CallbackUpdate(uid, _) => uid
  }

  /** The handler chosen for an update: `admin_router`'s handlers are tried before `router`'s. */
  function FindHandler(u: Update, waiting: bool): (h: Option<Handlers.Route>)
    ensures u.MessageUpdate? && Handlers.AdminMessage(u.text).Some? ==> h == Handlers.AdminMessage(u.text)
    ensures u.MessageUpdate? && Handlers.AdminMessage(u.text).None? ==> h == Handlers.RouterMessage(u.text, waiting)
    ensures u.CallbackUpdate? ==> h == Handlers.RouterCallback(u.data)
  {
    match u
    case MessageUpdate(_, text) =>
      if Handlers.AdminMessage(text).Some? then Handlers.AdminMessage(text) else Handlers.RouterMessage(text, waiting)
    case CallbackUpdate(_, data) => Handlers.RouterCallback(data)
  }

  /** The handlers only an administrator may use. */
  predicate AdminOnly(route: Handlers.Route) {
    route.StatsRoute? || route.BroadcastRoute? || route.BanRoute?
  }

  /**
   * What became of an update: no handler matched (and no middleware ran), the
   * handler ran, or the gate refused; `log` holds the logging middleware's lines.
   */
  datatype Delivery =
    | Unhandled
    | Handled(route: Handlers.Route, log: seq<string>)
    | Refused(log: seq<string>, answer: string)

  /** Each update is logged (messages only) and then passes the gate. */
  function GatedDispatch(adminIds: seq<int>, u: Update, route: Handlers.Route): Delivery {
    var log := if u.MessageUpdate? then Logging(u.uid, u.text, ()).log else [];
    match StrictGate(adminIds, Sender(u), route)
    case Called(r, _) => Handled(r, log)
    case Denied(answer) => Refused(log, answer)
  }

  /** `main` as written: the gate stands in front of every handler of both routers. */
  function DispatchAsWritten(adminIds: seq<int>, u: Update, waiting: bool): (d: Delivery)
    ensures FindHandler(u, waiting).None? <==> d.Unhandled?
    ensures d.Handled? ==> Some(d.route) == FindHandler(u, waiting) && Sender(u) in adminIds
    ensures !d.Unhandled? ==> (d.Refused? <==> Sender(u) !in adminIds)
  {
    var route := FindHandler(u, waiting);
    if route.None? then Unhandled else GatedDispatch(adminIds, u, route.value)
  }

  /** `/start` is none of `admin_router`'s commands. */
  lemma StartNotAdmin()
    ensures Handlers.AdminMessage(Some("/start")).None?
  {
    var s := "/start";
    StartHasNoSpace();
    assert s != "/" + "stats" by {
      assert s[4] != ("/" + "stats")[4];
    }
    assert s != "/" + "broadcast" by {
      assert |s| != |"/" + "broadcast"|;
    }
    Handlers.NotPrefix(s, "/ban ", 1);
    Handlers.NoAdminMessage(s);
  }

  /** `/start` is `router`'s first command. */
  lemma StartReachesRouter()
    ensures Handlers.RouterMessage(Some("/start"), false) == Some(Handlers.StartRoute)
  {
    var s := "/start";
    StartHasNoSpace();
    Handlers.CommandText(s, "start");
    StartSpelling();
  }

  /** `/start` holds no white space. */
  lemma StartHasNoSpace()
    ensures forall i :: 0 <= i < |"/start"| ==> !IsSpace("/start"[i])
  {
    var s := "/start";
    forall i | 0 <= i < |s|
      ensures !IsSpace(s[i])
    {
      assert 0x2F <= s[i] as int <= 0x74;
    }
  }

  /** `/start` is the command `start`. */
  lemma StartSpelling()
    ensures "/start" == "/" + "start"
  {
  }

  /** `/start`, after `/stats`, `/broadcast` and `/ban ` have not matched, reaches `cmd_start`. */
  lemma StartIsNoAdminCommand()
    ensures FindHandler(MessageUpdate(0, Some("/start")), false) == Some(Handlers.StartRoute)
  {
    StartNotAdmin();
    StartReachesRouter();
  }

  /**
   * As written, an ordinary user on a non-empty administrator list cannot
   * even start the bot: `/start` is refused with the denial text.
   */
  lemma NonAdminCannotStart(adminIds: seq<int>, uid: int)
    requires uid !in adminIds
    ensures DispatchAsWritten(adminIds, MessageUpdate(uid, Some("/start")), false).Refused?
  {
    StartIsNoAdminCommand();
  }

  /** The dispatch the admin-only commands call for: the gate stands in front of `admin_router`'s handlers only. */
  function Dispatch(adminIds: seq<int>, u: Update, waiting: bool): (d: Delivery)
    ensures FindHandler(u, waiting).None? <==> d.Unhandled?
    ensures d.Refused? <==> FindHandler(u, waiting).Some? && AdminOnly(FindHandler(u, waiting).value) && Sender(u) !in adminIds
    ensures d.Handled? ==> Some(d.route) == FindHandler(u, waiting)
  {
    var route := FindHandler(u, waiting);
    if route.None? then Unhandled
    else if AdminOnly(route.value) then GatedDispatch(adminIds, u, route.value)
    else
      var log := if u.MessageUpdate? then Logging(u.uid, u.text, ()).log else [];
      Handled(route.value, log)
  }

  /** With the gate on `admin_router` only, everyone reaches the user handlers and only administrators reach the admin ones. */
  lemma DispatchSeparatesAdmins(adminIds: seq<int>, u: Update, waiting: bool)
    requires FindHandler(u, waiting).Some?
    ensures Dispatch(adminIds, u, waiting).Handled? <==> !AdminOnly(FindHandler(u, waiting).value) || Sender(u) in adminIds
    ensures !AdminOnly(FindHandler(u, waiting).value) ==> Dispatch(adminIds, u, waiting).Handled?
  {
  }

  /** Both dispatches agree for administrators. */
  lemma DispatchesAgreeForAdmins(adminIds: seq<int>, u: Update, waiting: bool)
    requires Sender(u) in adminIds
    ensures Dispatch(adminIds, u, waiting) == DispatchAsWritten(adminIds, u, waiting)
  {
  }

  /** A text that is no command is no admin command, and while a title is awaited only the search buttons escape the wait. */
  lemma WaitingText(uid: int, s: string)
    requires |s| > 0 && !IsSpace(s[0]) && s[0] != '/'
    ensures FindHandler(MessageUpdate(uid, Some(s)), true)
         == if s in Handlers.SearchLabels then Some(Handlers.SearchStartRoute) else Some(Handlers.SearchResultRoute)
  {
    Handlers.NotCommand(s, "stats");
    Handlers.NotCommand(s, "broadcast");
    Handlers.NotPrefix(s, "/ban ", 0);
    Handlers.NotCommand(s, "start");
    Handlers.NotCommand(s, "help");
  }

  /** While a title is awaited, a text starting with the favourites, language or about emoji is taken as the title. */
  lemma WaitingTakesAside(uid: int, s: string)
    requires |s| > 0 && (s[0] == '⭐' || s[0] == '🌍' || s[0] == 'ℹ')
    ensures FindHandler(MessageUpdate(uid, Some(s)), true) == Some(Handlers.SearchResultRoute)
  {
    var search := Handlers.SearchLabels;
    assert search[0][0] == '🎵' && search[1][0] == '🎵';
    Handlers.StartsAside(s, search, s[0]);
    WaitingText(uid, s);
  }

  /** While a title is awaited, the "find song" button still starts a search. */
  lemma WaitingTakesSearch(uid: int, s: string)
    requires s in Handlers.SearchLabels
    ensures FindHandler(MessageUpdate(uid, Some(s)), true) == Some(Handlers.SearchStartRoute)
  {
    assert s[0] == '🎵';
    WaitingText(uid, s);
  }

  /**
   * While a song title is awaited, a menu button other than "find song" is
   * taken for the title: the waiting-state handler is declared before the
   * about, favourites and language handlers.
   */
  lemma WaitingTakesMenuButtons(uid: int, lang: string)
    ensures FindHandler(MessageUpdate(uid, Some(Keyboards.MainLabels(lang)[0])), true) == Some(Handlers.SearchStartRoute)
    ensures FindHandler(MessageUpdate(uid, Some(Keyboards.MainLabels(lang)[1])), true) == Some(Handlers.SearchResultRoute)
    ensures FindHandler(MessageUpdate(uid, Some(Keyboards.MainLabels(lang)[2])), true) == Some(Handlers.SearchResultRoute)
    ensures FindHandler(MessageUpdate(uid, Some(Keyboards.MainLabels(lang)[3])), true) == Some(Handlers.SearchResultRoute)
  {
    var labels := Keyboards.MainLabels(lang);
    if lang == "ru" {
      assert labels == ["🎵 Найти песню", "⭐ Избранное", "🌍 Язык", "ℹ️ О проекте"];
    } else {
      assert labels == ["🎵 Find song", "⭐ Favorites", "🌍 Language", "ℹ️ About"];
    }
    assert labels[0] in Handlers.SearchLabels;
    assert labels[1][0] == '⭐' && labels[2][0] == '🌍' && labels[3][0] == 'ℹ';
    WaitingTakesSearch(uid, labels[0]);
    WaitingTakesAside(uid, labels[1]);
    WaitingTakesAside(uid, labels[2]);
    WaitingTakesAside(uid, labels[3]);
  }
}
