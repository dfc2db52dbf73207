/**
 * The settings of bot/config.py: the two tokens and the administrators' ids,
 * read from the environment when the module is imported, then validated.
 * The environment is a parameter: `None` is a variable that is not set.
 */
module Config {
  import opened Wrappers
  import opened Text

  /** `int()` of each piece, in order. */
  function ParseEach(pieces: seq<string>): (xs: seq<Option<int>>)
    ensures |xs| == |pieces|
    ensures forall i :: 0 <= i < |pieces| ==> xs[i] == ParseInt(pieces[i])
  {
    seq(|pieces|, i requires 0 <= i < |pieces| => ParseInt(pieces[i]))
  }

  /** The values when every element is present; `None` as soon as one is missing. */
  function AllPresent<T>(xs: seq<Option<T>>): (r: Option<seq<T>>)
    ensures r.Some? ==> |r.value| == |xs|
    decreases |xs|
  {
    if xs == [] then Some([])
    else if xs[0].None? then None
    else
      var tail := AllPresent(xs[1..]);
      if tail.None? then None else Some([xs[0].value] + tail.value)
  }

  /** The values are collected exactly when none is missing. */
  lemma {:induction false} AllPresentIff<T>(xs: seq<Option<T>>)
    ensures AllPresent(xs).Some? <==> forall i :: 0 <= i < |xs| ==> xs[i].Some?
    decreases |xs|
  {
    if xs != [] {
      AllPresentIff(xs[1..]);
      assert forall i :: 1 <= i < |xs| ==> xs[i] == xs[1..][i - 1];
    }
  }

  /** The collected values are the elements' values, position by position. */
  lemma {:induction false} AllPresentAt<T>(xs: seq<Option<T>>, i: nat)
    requires AllPresent(xs).Some? && i < |xs|
    ensures xs[i] == Some(AllPresent(xs).value[i])
    decreases i
  {
    if i > 0 {
      AllPresentAt(xs[1..], i - 1);
    }
  }

  /** Elements that are all present collect into their values. */
  lemma {:induction false} AllPresentOfValues<T>(xs: seq<Option<T>>, vs: seq<T>)
    requires |xs| == |vs| && forall i :: 0 <= i < |xs| ==> xs[i] == Some(vs[i])
    ensures AllPresent(xs) == Some(vs)
    decreases |xs|
  {
    if xs != [] {
      assert forall i :: 0 <= i < |xs| - 1 ==> xs[1..][i] == xs[i + 1];
      AllPresentOfValues(xs[1..], vs[1..]);
      assert [vs[0]] + vs[1..] == vs;
    }
  }

  /** `[int(id) for id in pieces]`; `None` is the `ValueError` of a piece that is no integer. */
  function ParseIds(pieces: seq<string>): (r: Option<seq<int>>)
    ensures r.Some? ==> |r.value| == |pieces|
  {
    AllPresent(ParseEach(pieces))
  }

  /** Every piece is an integer literal. */
  predicate AllInts(pieces: seq<string>) {
    forall i :: 0 <= i < |pieces| ==> ParseInt(pieces[i]).Some?
  }

  /** The list comprehension succeeds exactly when every piece parses, and then holds their values in order. */
  lemma ParseIdsPieces(pieces: seq<string>)
    ensures ParseIds(pieces).Some? <==> AllInts(pieces)
    ensures ParseIds(pieces).Some? ==> forall i :: 0 <= i < |pieces| ==> ParseInt(pieces[i]) == Some(ParseIds(pieces).value[i])
  {
    var xs := ParseEach(pieces);
    AllPresentIff(xs);
    if ParseIds(pieces).Some? {
      forall i | 0 <= i < |pieces|
        ensures ParseInt(pieces[i]) == Some(ParseIds(pieces).value[i])
      {
        AllPresentAt(xs, i);
      }
    }
  }

  /**
   * `ADMIN_IDS`: the empty list when the variable is unset or empty,
   * otherwise the integers of its comma-separated pieces, in order.
   */
  function AdminIds(env: Option<string>): (r: Option<seq<int>>)
    ensures env.None? || env == Some("") ==> r == Some([])
    ensures env.Some? && env.value != "" ==> (r.Some? <==> AllInts(Split(env.value, ',')))
    ensures env.Some? && env.value != "" && r.Some? ==>
      |r.value| == |Split(env.value, ',')| && forall i :: 0 <= i < |r.value| ==> ParseInt(Split(env.value, ',')[i]) == Some(r.value[i])
  {
    if env.None? || env.value == "" then Some([])
    else
      ParseIdsPieces(Split(env.value, ','));
      ParseIds(Split(env.value, ','))
  }

  /** `str` of each id. */
  function IdStrings(ids: seq<int>): (ss: seq<string>)
    ensures |ss| == |ids|
    ensures forall i :: 0 <= i < |ids| ==> ss[i] == IntToString(ids[i])
  {
    seq(|ids|, i requires 0 <= i < |ids| => IntToString(ids[i]))
  }

  /** Parsing the printed ids gives the ids back. */
  lemma ParseIdStrings(ids: seq<int>)
    ensures ParseIds(IdStrings(ids)) == Some(ids)
  {
    var xs := ParseEach(IdStrings(ids));
    forall i | 0 <= i < |ids|
      ensures xs[i] == Some(ids[i])
    {
      ParseIntOfIntToString(ids[i]);
    }
    AllPresentOfValues(xs, ids);
  }

  /** Writing a non-empty list of ids as `1,2,3` and reading the variable back gives the same ids. */
  lemma AdminIdsRoundTrip(ids: seq<int>)
    requires ids != []
    ensures AdminIds(Some(Join(",", IdStrings(ids)))) == Some(ids)
  {
    var ss := IdStrings(ids);
    forall i | 0 <= i < |ss|
      ensures ',' !in ss[i]
    {
      IntToStringAvoids(ids[i], ',');
    }
    SplitJoin(ss, ',');
    ParseIdStrings(ids);
  }

  /** The class attributes of `Config`. */
  datatype Settings = Settings(botToken: Option<string>, geniusToken: Option<string>, adminIds: seq<int>)

  /** `not value` for an environment variable: unset or empty. */
  predicate Missing(token: Option<string>) {
    token.None? || token.value == ""
  }

  const BotTokenMissing: string := "Не указан BOT_TOKEN в .env файле"
  const GeniusTokenMissing: string := "Не указан GENIUS_TOKEN в .env файле"
  const AdminIdsMissing: string := "Не указаны ADMIN_IDS в .env файле"

  /** What `validate` did: passed with the warnings it logged, or raised `ValueError` with a message. */
  datatype Validation = Passed(warnings: seq<string>) | Rejected(message: string)

  /** `Config.validate`: the bot token is checked first, then the lyrics token; missing admins only warn. */
  function Validate(s: Settings): (v: Validation)
    ensures v.Passed? <==> !Missing(s.botToken) && !Missing(s.geniusToken)
    ensures Missing(s.botToken) ==> v == Rejected(BotTokenMissing)
    ensures !Missing(s.botToken) && Missing(s.geniusToken) ==> v == Rejected(GeniusTokenMissing)
    ensures v.Passed? ==> v.warnings == (if s.adminIds == [] then [AdminIdsMissing] else [])
  {
    if Missing(s.botToken) then Rejected(BotTokenMissing)
    else if Missing(s.geniusToken) then Rejected(GeniusTokenMissing)
    else if s.adminIds == [] then Passed([AdminIdsMissing])
    else Passed([])
  }

  /** Importing bot/config.py: reading the class attributes, then `config.validate()`. */
  datatype Startup = Loaded(settings: Settings, warnings: seq<string>) | BadAdminId | Refused(message: string)

  /** Reads the three variables, then validates: a bad admin id fails first. */
  function Load(botEnv: Option<string>, geniusEnv: Option<string>, adminEnv: Option<string>): (r: Startup)
    ensures r.BadAdminId? <==> AdminIds(adminEnv).None?
    ensures r.Loaded? ==> r.settings == Settings(botEnv, geniusEnv, AdminIds(adminEnv).value)
    ensures AdminIds(adminEnv).Some? ==> (r.Loaded? <==> !Missing(botEnv) && !Missing(geniusEnv))
  {
    var ids := AdminIds(adminEnv);
    if ids.None? then BadAdminId
    else
      var s := Settings(botEnv, geniusEnv, ids.value);
      match Validate(s)
      case Passed(w) => Loaded(s, w)
      case Rejected(m) => Refused(m)
  }

  /** The administrator list alone never stops the bot from starting: only a malformed list does. */
  lemma AdminsNeverRequired(botEnv: string, geniusEnv: string, adminEnv: Option<string>)
    requires botEnv != "" && geniusEnv != ""
    requires adminEnv.None? || adminEnv == Some("")
    ensures Load(Some(botEnv), Some(geniusEnv), adminEnv) == Loaded(Settings(Some(botEnv), Some(geniusEnv), []), [AdminIdsMissing])
  {
  }

  /** A missing bot token is reported even when the lyrics token is missing too. */
  lemma BotTokenReportedFirst(adminEnv: Option<string>)
    requires AdminIds(adminEnv).Some?
    ensures Load(None, None, adminEnv) == Refused(BotTokenMissing)
  {
  }
}
