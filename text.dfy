/**
 * The handful of Python string operations the bot relies on: `str()` of an
 * integer, `int()` of a string, `str.split`, `str.join`, `str.strip` and the
 * keyword form of `str.format`.
 */
module Text {
  import opened Wrappers

  predicate IsDigit(c: char) {
    '0' <= c <= '9'
  }

  predicate AllDigits(s: string) {
    forall i :: 0 <= i < |s| ==> IsDigit(s[i])
  }

  function DigitChar(d: nat): (c: char)
    requires d < 10
    ensures IsDigit(c) && c as int - '0' as int == d
  {
    ('0' as int + d) as char
  }

  /** `str(n)` for a non-negative `n`: decimal digits without leading zeros. */
  function NatToString(n: nat): (s: string)
    ensures |s| >= 1 && AllDigits(s)
    ensures n < 10 <==> |s| == 1
    decreases n
  {
    if n < 10 then [DigitChar(n)] else NatToString(n / 10) + [DigitChar(n % 10)]
  }

  /** `str(n)`: a minus sign for negative numbers, then the digits of `|n|`. */
  function IntToString(n: int): (s: string)
    ensures |s| >= 1 && IsDigit(s[|s| - 1])
    ensures n < 0 ==> s[0] == '-' && AllDigits(s[1..])
    ensures n >= 0 ==> AllDigits(s)
  {
    if n < 0 then
      var d := NatToString(-n);
      assert ("-" + d)[1..] == d;
      "-" + d
    else NatToString(n)
  }

  /** The value of a run of decimal digits, most significant first. */
  function DigitsValue(s: string): nat
    requires AllDigits(s)
    decreases |s|
  {
    if s == [] then 0
    else
      assert IsDigit(s[|s| - 1]);
      10 * DigitsValue(s[..|s| - 1]) + (s[|s| - 1] as int - '0' as int)
  }

  /**
   * The characters for which Python's `str.isspace` holds: the ones `int()`
   * strips and the argument-free `split()` splits at.
   */
  predicate IsSpace(c: char) {
    var n := c as int;
    || n == 0x20 || 0x09 <= n <= 0x0D || 0x1C <= n <= 0x1F
    || n == 0x85 || n == 0xA0 || n == 0x1680 || 0x2000 <= n <= 0x200A
    || n == 0x2028 || n == 0x2029 || n == 0x202F || n == 0x205F || n == 0x3000
  }

  function StripLeft(s: string): (r: string)
    ensures |r| <= |s| && r == s[|s| - |r|..]
    ensures r == [] || !IsSpace(r[0])
    decreases |s|
  {
    if s != [] && IsSpace(s[0]) then StripLeft(s[1..]) else s
  }

  function StripRight(s: string): (r: string)
    ensures |r| <= |s| && r == s[..|r|]
    ensures r == [] || !IsSpace(r[|r| - 1])
    decreases |s|
  {
    if s != [] && IsSpace(s[|s| - 1]) then StripRight(s[..|s| - 1]) else s
  }

  /** `s.strip()`: leading and trailing white space removed. */
  function Strip(s: string): string {
    StripRight(StripLeft(s))
  }

  /** `int` of a string with no white space around it: an optional sign, then at least one decimal digit. */
  function ParseStripped(t: string): (r: Option<int>)
    ensures r.Some? ==> |t| >= 1
  {
    if |t| >= 2 && (t[0] == '-' || t[0] == '+') && AllDigits(t[1..]) then
      var v: int := DigitsValue(t[1..]);
      Some(if t[0] == '-' then -v else v)
    else if |t| >= 1 && AllDigits(t) then
      Some(DigitsValue(t))
    else
      None
  }

  /**
   * Python's `int(s)` in base 10: surrounding white space is ignored, an
   * optional sign, then at least one decimal digit. `None` stands for the
   * `ValueError` Python raises on anything else.
   */
  function ParseInt(s: string): (r: Option<int>)
    ensures r.Some? ==> |Strip(s)| >= 1
  {
    ParseStripped(Strip(s))
  }

  lemma {:induction false} DigitsValueOfNatToString(n: nat)
    ensures DigitsValue(NatToString(n)) == n
    decreases n
  {
    var s := NatToString(n);
    if n >= 10 {
      DigitsValueOfNatToString(n / 10);
      assert s[..|s| - 1] == NatToString(n / 10);
    }
  }

  /** Digits and the minus sign are no white space. */
  lemma NotSpace(c: char)
    requires IsDigit(c) || c == '-'
    ensures !IsSpace(c)
  {
  }

  /** `str(n)` has no white space to strip. */
  lemma StripIntToString(n: int)
    ensures Strip(IntToString(n)) == IntToString(n)
  {
    var s := IntToString(n);
    if n < 0 {
      NotSpace(s[0]);
    } else {
      assert IsDigit(s[0]);
      NotSpace(s[0]);
    }
    assert StripLeft(s) == s;
    NotSpace(s[|s| - 1]);
    assert StripRight(s) == s;
  }

  /** A run of digits reads as its value. */
  lemma ParseStrippedDigits(t: string)
    requires |t| >= 1 && AllDigits(t)
    ensures ParseStripped(t) == Some(DigitsValue(t))
  {
    assert IsDigit(t[0]);
  }

  /** A minus sign and a run of digits read as minus their value. */
  lemma ParseStrippedMinus(d: string)
    requires |d| >= 1 && AllDigits(d)
    ensures ParseStripped("-" + d) == Some(-(DigitsValue(d) as int))
  {
    assert ("-" + d)[1..] == d;
  }

  lemma ParseStrippedMinusNat(m: nat)
    ensures ParseStripped("-" + NatToString(m)) == Some(-(m as int))
  {
    DigitsValueOfNatToString(m);
    ParseStrippedMinus(NatToString(m));
  }

  lemma NegativeToString(n: int)
    requires n < 0
    ensures IntToString(n) == "-" + NatToString(-n)
  {
  }

  lemma ParseStrippedOfNegative(n: int)
    requires n < 0
    ensures ParseStripped(IntToString(n)) == Some(n)
  {
    NegativeToString(n);
    ParseStrippedMinusNat(-n);
  }

  lemma ParseStrippedOfNat(n: nat)
    ensures ParseStripped(IntToString(n)) == Some(n)
  {
    assert IntToString(n) == NatToString(n);
    DigitsValueOfNatToString(n);
    ParseStrippedDigits(NatToString(n));
  }

  lemma ParseStrippedOfIntToString(n: int)
    ensures ParseStripped(IntToString(n)) == Some(n)
  {
    if n < 0 {
      ParseStrippedOfNegative(n);
    } else {
      ParseStrippedOfNat(n);
    }
  }

  /** `int(str(n)) == n` for every integer. */
  lemma ParseIntOfIntToString(n: int)
    ensures ParseInt(IntToString(n)) == Some(n)
  {
    StripIntToString(n);
    ParseStrippedOfIntToString(n);
  }

  /** Different integers print differently. */
  lemma IntToStringInjective(m: int, n: int)
    requires IntToString(m) == IntToString(n)
    ensures m == n
  {
    ParseIntOfIntToString(m);
    ParseIntOfIntToString(n);
  }

  /** `str(n)` holds only digits and possibly a leading minus sign. */
  lemma IntToStringAvoids(n: int, c: char)
    requires c != '-' && !IsDigit(c)
    ensures c !in IntToString(n)
  {
    var s := IntToString(n);
    forall i | 0 <= i < |s|
      ensures s[i] != c
    {
      if n < 0 && i > 0 {
        assert s[i] == s[1..][i - 1];
      }
    }
  }

  /** `s.split(sep)`: the pieces between occurrences of `sep`, possibly empty. */
  function Split(s: string, sep: char): (parts: seq<string>)
    ensures |parts| >= 1
    decreases |s|
  {
    if s == [] then [""]
    else
      var rest := Split(s[1..], sep);
      if s[0] == sep then [""] + rest else [[s[0]] + rest[0]] + rest[1..]
  }

  lemma {:induction false} SplitWithoutSeparator(s: string, sep: char)
    requires sep !in s
    ensures Split(s, sep) == [s]
    decreases |s|
  {
    if s != [] {
      SplitWithoutSeparator(s[1..], sep);
      assert [s[0]] + s[1..] == s;
    }
  }

  /** Splitting stops at the first separator and starts afresh after it. */
  lemma {:induction false} SplitAtFirst(a: string, b: string, sep: char)
    requires sep !in a
    ensures Split(a + [sep] + b, sep) == [a] + Split(b, sep)
    decreases |a|
  {
    var s := a + [sep] + b;
    if a == [] {
      assert s[1..] == b;
    } else {
      assert s[1..] == a[1..] + [sep] + b;
      SplitAtFirst(a[1..], b, sep);
      assert [a[0]] + a[1..] == a;
    }
  }

  /** `sep.join(xs)`. */
  function Join(sep: string, xs: seq<string>): string
    decreases |xs|
  {
    if xs == [] then ""
    else if |xs| == 1 then xs[0]
    else xs[0] + sep + Join(sep, xs[1..])
  }

  /** Joining pieces that do not contain the separator, then splitting, gives the pieces back. */
  lemma {:induction false} SplitJoin(xs: seq<string>, sep: char)
    requires |xs| >= 1
    requires forall i :: 0 <= i < |xs| ==> sep !in xs[i]
    ensures Split(Join([sep], xs), sep) == xs
    decreases |xs|
  {
    if |xs| == 1 {
      SplitWithoutSeparator(xs[0], sep);
    } else {
      SplitJoin(xs[1..], sep);
      SplitAtFirst(xs[0], Join([sep], xs[1..]), sep);
      assert [xs[0]] + xs[1..] == xs;
    }
  }

  /** Joining one more piece adds the separator and the piece at the end. */
  lemma {:induction false} JoinSnoc(sep: string, xs: seq<string>, x: string)
    requires xs != []
    ensures Join(sep, xs + [x]) == Join(sep, xs) + sep + x
    decreases |xs|
  {
    var ys := xs + [x];
    assert ys[0] == xs[0];
    if |xs| == 1 {
      assert ys[1..] == [x];
    } else {
      assert ys[1..] == xs[1..] + [x];
      JoinSnoc(sep, xs[1..], x);
    }
  }

  /** The position of the first `c` in `s`. */
  function IndexOf(s: string, c: char): (r: Option<nat>)
    ensures r.Some? ==> r.value < |s| && s[r.value] == c && c !in s[..r.value]
    ensures r.None? ==> c !in s
    decreases |s|
  {
    if s == [] then None
    else if s[0] == c then Some(0)
    else
      match IndexOf(s[1..], c)
      case None => None
      case Some(k) =>
        assert s[..k + 1] == [s[0]] + s[1..][..k];
        Some(k + 1)
  }

  /** The first `c` in `a + [c] + b` is the one after `a`. */
  lemma IndexOfFirst(a: string, c: char, b: string)
    requires c !in a
    ensures IndexOf(a + [c] + b, c) == Some(|a|)
  {
    var s := a + [c] + b;
    assert s[|a|] == c;
    assert s[..|a|] == a;
    assert forall j :: 0 <= j < |a| ==> s[j] == a[j];
    assert forall k :: |a| < k <= |s| ==> s[..k][|a|] == c;
  }

  function Prepend(p: string, o: Option<string>): Option<string> {
    match o
    case Some(r) => Some(p + r)
    case None => None
  }

  predicate NoBraces(s: string) {
    '{' !in s && '}' !in s
  }

  /**
   * `template.format(**args)` for templates whose replacement fields are
   * plain names: `{{` and `}}` stand for single braces, `{name}` for
   * `args[name]`. `None` stands for the `KeyError`, `IndexError` or
   * `ValueError` Python raises for a missing name, a positional field or an
   * unmatched brace. Substituted values are not scanned again.
   */
  function Format(template: string, args: map<string, string>): Option<string>
    decreases |template|
  {
    if template == [] then Some("")
    else if template[0] == '{' then
      if |template| >= 2 && template[1] == '{' then
        Prepend("{", Format(template[2..], args))
      else
        match IndexOf(template[1..], '}')
        case None => None
        case Some(k) =>
          var name := template[1..k + 1];
          if '{' in name || name !in args then None
          else Prepend(args[name], Format(template[k + 2..], args))
    else if template[0] == '}' then
      if |template| >= 2 && template[1] == '}' then Prepend("}", Format(template[2..], args))
      else None
    else
      Prepend([template[0]], Format(template[1..], args))
  }

  /** Text without braces is copied through unchanged. */
  lemma {:induction false} FormatLiteral(p: string, rest: string, args: map<string, string>)
    requires NoBraces(p)
    ensures Format(p + rest, args) == Prepend(p, Format(rest, args))
    decreases |p|
  {
    if p != [] {
      var t := p + rest;
      assert p[0] in p;
      assert t[0] == p[0] && t[1..] == p[1..] + rest;
      assert forall c :: c in p[1..] ==> c in p;
      FormatLiteral(p[1..], rest, args);
      assert [p[0]] + p[1..] == p;
      assert Format(t, args) == Prepend([p[0]], Format(p[1..] + rest, args));
      match Format(rest, args)
      case None =>
      case Some(r) =>
        assert [p[0]] + (p[1..] + r) == p + r;
    } else {
      assert p + rest == rest;
      match Format(rest, args)
      case None =>
      case Some(r) =>
        assert p + r == r;
    }
  }

  /** A field `{name}` is replaced by its argument. */
  lemma FormatField(name: string, rest: string, args: map<string, string>)
    requires NoBraces(name) && name in args
    ensures Format("{" + name + "}" + rest, args) == Prepend(args[name], Format(rest, args))
  {
    var t := "{" + name + "}" + rest;
    assert t[1..] == name + ['}'] + rest;
    IndexOfFirst(name, '}', rest);
    assert t[1..|name| + 1] == name;
    assert t[|name| + 2..] == rest;
  }

  /** A template without fields formats to itself, whatever the arguments. */
  lemma FormatPlain(p: string, args: map<string, string>)
    requires NoBraces(p)
    ensures Format(p, args) == Some(p)
  {
    FormatLiteral(p, "", args);
    assert p + "" == p;
  }

  /** Literal text, then a field `{x}`, then the rest of the template. */
  lemma FormatFieldAfter(a: string, x: string, rest: string, args: map<string, string>)
    requires NoBraces(a) && NoBraces(x) && x in args
    ensures Format(a + "{" + x + "}" + rest, args) == Prepend(a + args[x], Format(rest, args))
  {
    var field := "{" + x + "}" + rest;
    assert a + "{" + x + "}" + rest == a + field;
    FormatLiteral(a, field, args);
    FormatField(x, rest, args);
    match Format(rest, args)
    case None =>
    case Some(r) =>
      assert a + (args[x] + r) == a + args[x] + r;
  }

  /** A template with one field: literal text, `{x}`, literal text. */
  lemma FormatOneField(a: string, x: string, b: string, args: map<string, string>)
    requires NoBraces(a) && NoBraces(x) && NoBraces(b) && x in args
    ensures Format(a + "{" + x + "}" + b, args) == Some(a + args[x] + b)
  {
    FormatFieldAfter(a, x, b, args);
    FormatPlain(b, args);
  }

  /** A template with two fields: `a{x}b{y}c`. */
  lemma FormatTwoFields(a: string, x: string, b: string, y: string, c: string, args: map<string, string>)
    requires NoBraces(a) && NoBraces(x) && NoBraces(b) && NoBraces(y) && NoBraces(c)
    requires x in args && y in args
    ensures Format(a + "{" + x + "}" + b + "{" + y + "}" + c, args) == Some(a + args[x] + b + args[y] + c)
  {
    var rest := b + "{" + y + "}" + c;
    assert a + "{" + x + "}" + b + "{" + y + "}" + c == a + "{" + x + "}" + rest;
    FormatFieldAfter(a, x, rest, args);
    FormatOneField(b, y, c, args);
    assert a + args[x] + (b + args[y] + c) == a + args[x] + b + args[y] + c;
  }

  /** `s.startswith(p)`. */
  predicate StartsWith(s: string, p: string) {
    |p| <= |s| && s[..|p|] == p
  }
}
