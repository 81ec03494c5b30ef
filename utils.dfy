/**
 * The total string-to-integer conversion of fritz_node_exporter/utils.py.
 *
 * `SafeStrToInt` returns the integer a string denotes and a default value
 * whenever there is no string or the string is not an integer.  Python's
 * `int(s)` on a `str` (base 10) is modelled by `ParseInt`: surrounding
 * whitespace is ignored, an optional `+` or `-` sign comes next, then one or
 * more decimal digits, where a single underscore may stand between two digits.
 */
module Utils {
  import opened Wrappers

  predicate IsDigit(c: char) {
    '0' <= c <= '9'
  }

  function DigitValue(c: char): (d: nat)
    requires IsDigit(c)
    ensures d < 10
  {
    c as int - '0' as int
  }

  function DigitChar(d: nat): (c: char)
    requires d < 10
    ensures IsDigit(c) && DigitValue(c) == d
  {
    ('0' as int + d) as char
  }

  /**
   * The whitespace `int()` skips around an ASCII string: space, and tab
   * through carriage return.  (U+001C to U+001F pass `str.isspace()` but not
   * this test.)
   */
  predicate IsSpace(c: char) {
    c == ' ' || (9 <= c as int <= 13)
  }

  predicate AllSpace(s: string) {
    forall i :: 0 <= i < |s| ==> IsSpace(s[i])
  }

  function TrimStart(s: string): string {
    if s != [] && IsSpace(s[0]) then TrimStart(s[1..]) else s
  }

  function TrimEnd(s: string): string {
    if s != [] && IsSpace(s[|s| - 1]) then TrimEnd(s[..|s| - 1]) else s
  }

  /** `TrimStart` removes a prefix of whitespace and leaves no whitespace in front. */
  lemma {:induction false} TrimStartShape(s: string)
    ensures var t := TrimStart(s);
      && |t| <= |s| && t == s[|s| - |t|..]
      && AllSpace(s[..|s| - |t|])
      && (t != [] ==> !IsSpace(t[0]))
  {
    if s != [] && IsSpace(s[0]) {
      TrimStartShape(s[1..]);
      var t := TrimStart(s);
      assert s[..|s| - |t|] == [s[0]] + s[1..][..|s| - 1 - |t|];
    }
  }

  /** `TrimEnd` removes a suffix of whitespace and leaves no whitespace at the end. */
  lemma {:induction false} TrimEndShape(s: string)
    ensures var t := TrimEnd(s);
      && |t| <= |s| && t == s[..|t|]
      && AllSpace(s[|t|..])
      && (t != [] ==> !IsSpace(t[|t| - 1]))
  {
    if s != [] && IsSpace(s[|s| - 1]) {
      TrimEndShape(s[..|s| - 1]);
      var t := TrimEnd(s);
      assert s[|t|..] == s[..|s| - 1][|t|..] + [s[|s| - 1]];
    }
  }

  /** What `int()` strips before it reads the number. */
  function Strip(s: string): string {
    TrimEnd(TrimStart(s))
  }

  predicate AllDigits(ds: string) {
    forall i :: 0 <= i < |ds| ==> IsDigit(ds[i])
  }

  /** The value of a run of digits, read left to right by place value. */
  function DigitsValue(ds: string): nat
    requires AllDigits(ds)
  {
    if ds == [] then 0 else DigitValue(ds[0]) * Pow10(|ds| - 1) + DigitsValue(ds[1..])
  }

  function Pow10(n: nat): (p: nat)
    ensures p >= 1
  {
    if n == 0 then 1 else 10 * Pow10(n - 1)
  }

  /** `s` with its underscores taken out. */
  function RemoveUnderscores(s: string): (t: string)
    ensures (forall i :: 0 <= i < |s| ==> IsDigit(s[i]) || s[i] == '_') ==> AllDigits(t)
  {
    if s == [] then []
    else if s[0] == '_' then RemoveUnderscores(s[1..])
    else [s[0]] + RemoveUnderscores(s[1..])
  }

  /**
   * The digit grammar of `int()`: digits and underscores only, a digit at
   * both ends, and every underscore between two digits.
   */
  predicate WellFormedDigits(s: string) {
    && |s| > 0
    && IsDigit(s[0])
    && IsDigit(s[|s| - 1])
    && (forall i :: 0 <= i < |s| ==> IsDigit(s[i]) || s[i] == '_')
    && (forall i :: 0 < i < |s| ==> s[i] == '_' ==> IsDigit(s[i - 1]))
  }

  /** The number a string of the digit grammar denotes. */
  function GrammarValue(s: string): nat
    requires WellFormedDigits(s)
  {
    DigitsValue(RemoveUnderscores(s))
  }

  /**
   * The scanner: reads the digits from the right, skipping one underscore
   * before each digit that is not the first.
   */
  function ParseDigits(s: string): Option<nat>
    decreases |s|
  {
    if |s| == 0 || !IsDigit(s[|s| - 1]) then None
    else if |s| == 1 then Some(DigitValue(s[0]))
    else
      var prefix := s[..|s| - 1];
      var rest := if prefix[|prefix| - 1] == '_' then prefix[..|prefix| - 1] else prefix;
      match ParseDigits(rest)
      case None => None
      case Some(v) => Some(10 * v + DigitValue(s[|s| - 1]))
  }

  /** Python's `int(s)` for a `str` `s`: `None` where `int` raises `ValueError`. */
  function ParseInt(s: string): Option<int> {
    ParseSigned(Strip(s))
  }

  /** An optional sign followed by digits, with nothing around them. */
  function ParseSigned(t: string): Option<int> {
    if t == [] then None
    else
      var body := if t[0] == '+' || t[0] == '-' then t[1..] else t;
      match ParseDigits(body)
      case None => None
      case Some(v) => var n: int := v; Some(if t[0] == '-' then -n else n)
  }

  /** `safe_str_to_int(s, default_value=0)`. */
  function SafeStrToInt(s: Option<string>, default: int := 0): int {
    match s
    case None => default
    case Some(t) =>
      match ParseInt(t)
      case Some(v) => v
      case None => default
  }

  /** Python's `str(n)` for an integer `n`. */
  function IntToString(n: int): string {
    if n < 0 then "-" + NatToString(-n) else NatToString(n)
  }

  function NatToString(n: nat): (s: string)
    ensures |s| > 0 && IsDigit(s[0]) && IsDigit(s[|s| - 1])
    ensures forall i :: 0 <= i < |s| ==> IsDigit(s[i])
  {
    if n < 10 then [DigitChar(n)] else NatToString(n / 10) + [DigitChar(n % 10)]
  }

  // ---------------------------------------------------------------------
  // Properties of the digit scanner

  lemma {:induction false} DigitsValueSnoc(ds: string, c: char)
    requires AllDigits(ds) && IsDigit(c)
    ensures AllDigits(ds + [c])
    ensures DigitsValue(ds + [c]) == 10 * DigitsValue(ds) + DigitValue(c)
  {
    if ds != [] {
      var d, p, rest := DigitValue(ds[0]), Pow10(|ds| - 1), DigitsValue(ds[1..]);
      assert (ds + [c])[0] == ds[0];
      assert (ds + [c])[1..] == ds[1..] + [c];
      DigitsValueSnoc(ds[1..], c);
      assert DigitsValue(ds + [c]) == d * Pow10(|ds|) + (10 * rest + DigitValue(c));
      assert Pow10(|ds|) == 10 * p;
      ShiftDigit(d, p, rest, DigitValue(c));
    }
  }

  lemma ShiftDigit(d: int, p: int, rest: int, c: int)
    ensures d * (10 * p) + (10 * rest + c) == 10 * (d * p + rest) + c
  {
  }

  lemma {:induction false} RemoveUnderscoresSnoc(s: string, c: char)
    ensures RemoveUnderscores(s + [c]) == RemoveUnderscores(s) + (if c == '_' then [] else [c])
  {
    if s != [] {
      assert (s + [c])[1..] == s[1..] + [c];
      RemoveUnderscoresSnoc(s[1..], c);
    } else {
      assert [c][1..] == [];
    }
  }

  /** What the scanner scans after the last digit of `s`: the prefix without one trailing underscore. */
  function Rest(s: string): (r: string)
    requires |s| >= 2
    ensures |r| < |s|
  {
    var prefix := s[..|s| - 1];
    if prefix[|prefix| - 1] == '_' then prefix[..|prefix| - 1] else prefix
  }

  lemma RestWellFormed(s: string)
    requires |s| >= 2 && IsDigit(s[|s| - 1])
    ensures WellFormedDigits(s) <==> WellFormedDigits(Rest(s))
  {
    var rest := Rest(s);
    assert forall i :: 0 <= i < |rest| ==> rest[i] == s[i];
    if WellFormedDigits(s) && s[|s| - 2] == '_' {
      assert IsDigit(s[|s| - 3]);
    }
  }

  lemma {:induction false} RestValue(s: string)
    requires |s| >= 2 && s[|s| - 1] != '_'
    ensures RemoveUnderscores(s) == RemoveUnderscores(Rest(s)) + [s[|s| - 1]]
  {
    var last := s[|s| - 1];
    var prefix := s[..|s| - 1];
    assert s == prefix + [last];
    RemoveUnderscoresSnoc(prefix, last);
    if prefix[|prefix| - 1] == '_' {
      assert prefix == Rest(s) + ['_'];
      RemoveUnderscoresSnoc(Rest(s), '_');
    }
  }

  /**
   * The scanner accepts exactly the strings of the digit grammar and
   * returns their place value, underscores ignored.
   */
  lemma {:induction false} ParseDigitsCorrect(s: string)
    ensures ParseDigits(s) == if WellFormedDigits(s) then Some(GrammarValue(s)) else None
    decreases |s|
  {
    if |s| == 0 || !IsDigit(s[|s| - 1]) {
    } else if |s| == 1 {
      assert RemoveUnderscores(s) == [s[0]] + RemoveUnderscores(s[1..]);
      assert DigitsValue([s[0]]) == DigitValue(s[0]) * Pow10(0) + DigitsValue([]);
    } else {
      var rest := Rest(s);
      ParseDigitsCorrect(rest);
      RestWellFormed(s);
      if WellFormedDigits(s) {
        RestValue(s);
        DigitsValueSnoc(RemoveUnderscores(rest), s[|s| - 1]);
      }
    }
  }

  // ---------------------------------------------------------------------
  // Stripping whitespace

  lemma {:induction false} TrimStartSpaces(ws: string, y: string)
    requires AllSpace(ws) && (y == [] || !IsSpace(y[0]))
    ensures TrimStart(ws + y) == y
  {
    if ws != [] {
      assert (ws + y)[1..] == ws[1..] + y;
      TrimStartSpaces(ws[1..], y);
    } else {
      assert ws + y == y;
    }
  }

  lemma {:induction false} TrimEndSpaces(y: string, ws: string)
    requires AllSpace(ws) && (y == [] || !IsSpace(y[|y| - 1]))
    ensures TrimEnd(y + ws) == y
  {
    if ws != [] {
      assert (y + ws)[..|y + ws| - 1] == y + ws[..|ws| - 1];
      TrimEndSpaces(y, ws[..|ws| - 1]);
    } else {
      assert y + ws == y;
    }
  }

  /** Whitespace around a string whose ends are not whitespace is all that `Strip` removes. */
  lemma StripSpaces(ws1: string, x: string, ws2: string)
    requires AllSpace(ws1) && AllSpace(ws2)
    requires x != [] && !IsSpace(x[0]) && !IsSpace(x[|x| - 1])
    ensures Strip(ws1 + x + ws2) == x
  {
    assert ws1 + x + ws2 == ws1 + (x + ws2);
    TrimStartSpaces(ws1, x + ws2);
    TrimEndSpaces(x, ws2);
  }

  // ---------------------------------------------------------------------
  // Properties of int() and safe_str_to_int

  /** A string without whitespace at either end is read as it is. */
  lemma ParseIntUnpadded(s: string)
    requires s != [] && !IsSpace(s[0]) && !IsSpace(s[|s| - 1])
    ensures ParseInt(s) == ParseSigned(s)
  {
    StripSpaces([], s, []);
    assert [] + s + [] == s;
  }

  lemma {:induction false} ParseDigitsNatToString(n: nat)
    ensures ParseDigits(NatToString(n)) == Some(n)
  {
    if n >= 10 {
      var s := NatToString(n);
      assert s[..|s| - 1] == NatToString(n / 10);
      ParseDigitsNatToString(n / 10);
    }
  }

  /** The decimal rendering of `m` is in the digit grammar and denotes `m`. */
  lemma NatToStringWellFormed(m: nat)
    ensures WellFormedDigits(NatToString(m)) && GrammarValue(NatToString(m)) == m
  {
    ParseDigitsNatToString(m);
    ParseDigitsCorrect(NatToString(m));
  }

  /** `int(str(n)) == n` for every integer `n`. */
  lemma {:induction false} ParseIntRoundTrip(n: int)
    ensures ParseInt(IntToString(n)) == Some(n)
  {
    if n < 0 {
      ParseIntSignedNatString("-", -n);
    } else {
      ParseIntSignedNatString("", n);
      assert "" + NatToString(n) == IntToString(n);
    }
  }

  lemma {:induction false} ParseIntSignedNatString(sign: string, m: nat)
    requires sign == "" || sign == "-"
    ensures ParseInt(sign + NatToString(m)) == Some(if sign == "-" then -(m as int) else m)
  {
    var digits := NatToString(m);
    NatToStringWellFormed(m);
    var s := sign + digits;
    assert s[|s| - 1] == digits[|digits| - 1];
    assert s[0] == if sign == "" then digits[0] else '-';
    ParseIntUnpadded(s);
    ParseSignedDigits(sign, digits);
  }

  /** A string that Python's `str` made from an integer converts back to that integer, whatever the default. */
  lemma SafeStrToIntRoundTrip(n: int, default: int)
    ensures SafeStrToInt(Some(IntToString(n)), default) == n
  {
    ParseIntRoundTrip(n);
  }

  /**
   * Every well-formed decimal integer, with an optional sign and surrounding
   * whitespace, converts to its value.
   */
  lemma {:induction false} ParseIntComplete(ws1: string, sign: string, ds: string, ws2: string)
    requires AllSpace(ws1) && AllSpace(ws2)
    requires sign == "" || sign == "+" || sign == "-"
    requires WellFormedDigits(ds)
    ensures ParseInt(ws1 + sign + ds + ws2) == Some(if sign == "-" then -(GrammarValue(ds) as int) else GrammarValue(ds))
  {
    var x := sign + ds;
    assert ws1 + sign + ds + ws2 == ws1 + x + ws2;
    assert x[|x| - 1] == ds[|ds| - 1];
    StripSpaces(ws1, x, ws2);
    ParseSignedDigits(sign, ds);
  }

  lemma {:induction false} ParseSignedDigits(sign: string, ds: string)
    requires sign == "" || sign == "+" || sign == "-"
    requires WellFormedDigits(ds)
    ensures ParseSigned(sign + ds) == Some(if sign == "-" then -(GrammarValue(ds) as int) else GrammarValue(ds))
  {
    var t := sign + ds;
    ParseDigitsCorrect(ds);
    if sign != "" {
      assert t[0] == sign[0] && t[1..] == ds;
    } else {
      assert t == ds;
    }
    var body := if t[0] == '+' || t[0] == '-' then t[1..] else t;
    assert body == ds;
  }

  /**
   * What `int()` accepts: after stripping whitespace, an optional sign and a
   * string of the digit grammar, and the result is the signed value of the digits.
   */
  lemma ParseIntSound(s: string)
    requires ParseInt(s).Some?
    ensures var t := Strip(s);
      && t != []
      && var body := if t[0] == '+' || t[0] == '-' then t[1..] else t;
      && WellFormedDigits(body)
      && ParseInt(s).value == if t[0] == '-' then -(GrammarValue(body) as int) else GrammarValue(body)
  {
    var t := Strip(s);
    if t[0] == '+' || t[0] == '-' {
      ParseDigitsCorrect(t[1..]);
    } else {
      ParseDigitsCorrect(t);
    }
  }

  /** A string holding a character that cannot occur in an integer literal converts to the default. */
  lemma SafeStrToIntForeignChar(s: string, i: nat, default: int)
    requires i < |s|
    requires !IsDigit(s[i]) && s[i] != '_' && s[i] != '+' && s[i] != '-' && !IsSpace(s[i])
    ensures SafeStrToInt(Some(s), default) == default
  {
    if ParseInt(s).Some? {
      ParseIntSound(s);
      var j := StrippedIndex(s, i);
    }
  }

  /**
   * The information separators U+001C to U+001F are not whitespace to `int()`:
   * a number behind one gives the default.
   */
  lemma SeparatorIsNotPadding(n: int, default: int)
    ensures SafeStrToInt(Some(['\U{1c}'] + IntToString(n)), default) == default
    ensures SafeStrToInt(Some(IntToString(n) + ['\U{1f}']), default) == default
  {
    SafeStrToIntForeignChar(['\U{1c}'] + IntToString(n), 0, default);
    var t := IntToString(n) + ['\U{1f}'];
    SafeStrToIntForeignChar(t, |t| - 1, default);
  }

  /** Where a character of `s` that is not whitespace sits in `Strip(s)`. */
  lemma StrippedIndex(s: string, i: nat) returns (j: nat)
    requires i < |s| && !IsSpace(s[i])
    ensures j < |Strip(s)| && Strip(s)[j] == s[i]
  {
    var t1 := TrimStart(s);
    TrimStartShape(s);
    TrimEndShape(t1);
    j := i - (|s| - |t1|);
  }

  /** A missing value converts to the default, which is 0 unless given. */
  lemma SafeStrToIntMissing(default: int)
    ensures SafeStrToInt(None) == 0
    ensures SafeStrToInt(None, default) == default
  {
  }

  /** The empty string and a string of whitespace alone are not integers. */
  lemma SafeStrToIntBlank(ws: string, default: int)
    requires AllSpace(ws)
    ensures SafeStrToInt(Some(ws), default) == default
  {
    TrimStartSpaces(ws, []);
    assert ws + [] == ws;
  }
}
