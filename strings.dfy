/**
 * The handful of Python string operations the bot relies on:
 * `startswith`, `strip`, `lower`, `upper`, `int(str)`, `str(int)` and
 * `str.format` with keyword arguments. All of them are modelled on ASCII.
 */
module Strings {
  import opened Wrappers

  predicate StartsWith(s: string, prefix: string) {
    |prefix| <= |s| && s[..|prefix|] == prefix
  }

  /**
   * What follows `prefix` in `s`. For a prefix made of n colon-terminated words,
   * this is what `s.split(":", n)[n]` yields.
   */
  function After(s: string, prefix: string): (r: string)
    requires StartsWith(s, prefix)
    ensures prefix + r == s
  {
    s[|prefix|..]
  }

  // ---------------------------------------------------------------------------
  // strip / lower / upper

  predicate IsSpace(c: char) {
    c == ' ' || c == '\t' || c == '\n' || c == '\r' || c == '\U{B}' || c == '\U{C}'
    || ('\U{1C}' <= c <= '\U{1F}')
  }

  function Strip(s: string): (r: string)
    ensures |r| <= |s|
    ensures r != [] ==> !IsSpace(r[0]) && !IsSpace(r[|r| - 1])
    decreases |s|
  {
    if s != [] && IsSpace(s[0]) then Strip(s[1..])
    else if s != [] && IsSpace(s[|s| - 1]) then Strip(s[..|s| - 1])
    else s
  }

  function LowerChar(c: char): char {
    if 'A' <= c <= 'Z' then (c as int + 32) as char else c
  }

  function UpperChar(c: char): char {
    if 'a' <= c <= 'z' then (c as int - 32) as char else c
  }

  function Lower(s: string): (r: string)
    ensures |r| == |s|
    ensures forall i :: 0 <= i < |s| ==> r[i] == LowerChar(s[i])
  {
    seq(|s|, i requires 0 <= i < |s| => LowerChar(s[i]))
  }

  function Upper(s: string): (r: string)
    ensures |r| == |s|
    ensures forall i :: 0 <= i < |s| ==> r[i] == UpperChar(s[i])
  {
    seq(|s|, i requires 0 <= i < |s| => UpperChar(s[i]))
  }

  // ---------------------------------------------------------------------------
  // int(str) and str(int)

  predicate IsDigit(c: char) { '0' <= c <= '9' }

  predicate AllDigits(s: string) {
    forall i :: 0 <= i < |s| ==> IsDigit(s[i])
  }

  function DigitValue(c: char): nat
    requires IsDigit(c)
  {
    c as int - '0' as int
  }

  function DigitChar(d: nat): (c: char)
    requires d < 10
    ensures IsDigit(c) && DigitValue(c) == d
  {
    ('0' as int + d) as char
  }

  /** The value of a decimal numeral, most significant digit first. */
  function NumeralValue(s: string): nat
    requires AllDigits(s)
    decreases |s|
  {
    if s == [] then 0 else NumeralValue(s[..|s| - 1]) * 10 + DigitValue(s[|s| - 1])
  }

  /** Python's `int(s)` on a string: surrounding whitespace, an optional sign, at least one digit. */
  function ParseInt(s: string): (r: Option<int>)
    ensures r.Some? ==> exists i :: 0 <= i < |s| && IsDigit(s[i])
  {
    var t := Strip(s);
    if t != [] && (t[0] == '-' || t[0] == '+') then
      var digits := t[1..];
      if digits != [] && AllDigits(digits) then
        var v: int := NumeralValue(digits);
        assert digits[0] == t[1];
        StripKeeps(s, t[1]);
        Some(if t[0] == '-' then -v else v)
      else None
    else if t != [] && AllDigits(t) then
      StripKeeps(s, t[0]);
      Some(NumeralValue(t))
    else None
  }

  /** `strip` only removes characters: whatever it returns was in its input. */
  lemma {:induction false} StripKeeps(s: string, c: char)
    requires c in Strip(s)
    ensures c in s
    decreases |s|
  {
    if s != [] && IsSpace(s[0]) {
      StripKeeps(s[1..], c);
    } else if s != [] && IsSpace(s[|s| - 1]) {
      StripKeeps(s[..|s| - 1], c);
    }
  }

  /** Text without a single digit is never a number: `int` raises on it. */
  lemma NoDigitNoInt(s: string)
    requires forall i :: 0 <= i < |s| ==> !IsDigit(s[i])
    ensures ParseInt(s) == None
  {
    var t := Strip(s);
    if t != [] && (t[0] == '-' || t[0] == '+') && t[1..] != [] && AllDigits(t[1..]) {
      assert t[1..][0] == t[1];
      StripKeeps(s, t[1]);
    } else if t != [] && AllDigits(t) {
      StripKeeps(s, t[0]);
    }
  }

  function Numeral(n: nat): (s: string)
    ensures s != [] && AllDigits(s)
    decreases n
  {
    if n < 10 then [DigitChar(n)] else Numeral(n / 10) + [DigitChar(n % 10)]
  }

  /** Python's `str(n)` on an integer. */
  function DecimalString(n: int): (s: string)
    ensures s != [] && IsDigit(s[|s| - 1])
  {
    if n < 0 then "-" + Numeral(-n) else Numeral(n)
  }

  lemma {:induction false} NumeralRoundTrip(n: nat)
    ensures NumeralValue(Numeral(n)) == n
    decreases n
  {
    if n >= 10 {
      NumeralRoundTrip(n / 10);
      var s := Numeral(n);
      assert s[..|s| - 1] == Numeral(n / 10);
    }
  }

  /** `int(str(n)) == n` for every integer. */
  lemma ParseDecimalString(n: int)
    ensures ParseInt(DecimalString(n)) == Some(n)
  {
    if n < 0 {
      ParseNegative(-n);
    } else {
      ParseNatural(n);
    }
  }

  lemma ParseNatural(n: nat)
    ensures ParseInt(Numeral(n)) == Some(n)
  {
    var s := Numeral(n);
    assert IsDigit(s[0]) && IsDigit(s[|s| - 1]);
    assert Strip(s) == s;
    NumeralRoundTrip(n);
  }

  lemma ParseNegative(m: nat)
    requires m > 0
    ensures ParseInt("-" + Numeral(m)) == Some(-(m as int))
  {
    var s := "-" + Numeral(m);
    assert s[1..] == Numeral(m);
    assert !IsSpace(s[0]) && !IsSpace(s[|s| - 1]);
    assert Strip(s) == s;
    NumeralRoundTrip(m);
  }

  // ---------------------------------------------------------------------------
  // str.format(**kwargs)

  /** The index of the first '}' at or after `i`, or |t| when there is none. */
  function CloseBrace(t: string, i: nat): (j: nat)
    requires i <= |t|
    ensures i <= j <= |t|
    ensures j < |t| ==> t[j] == '}'
    ensures forall k :: i <= k < j ==> t[k] != '}'
    decreases |t| - i
  {
    if i == |t| || t[i] == '}' then i else CloseBrace(t, i + 1)
  }

  lemma {:induction false} CloseBraceAt(t: string, i: nat, j: nat)
    requires i <= j < |t| && t[j] == '}'
    requires forall k :: i <= k < j ==> t[k] != '}'
    ensures CloseBrace(t, i) == j
    decreases j - i
  {
    if i < j {
      CloseBraceAt(t, i + 1, j);
    }
  }

  function Prepend(c: string, r: Option<string>): Option<string> {
    if r.Some? then Some(c + r.value) else None
  }

  /**
   * `t.format(**args)` for templates with named replacement fields: "{{" and "}}"
   * are literal braces, "{name}" is replaced by args[name]. A name that is empty,
   * holds a '{', or is not among the arguments, and a brace left unmatched, make
   * the formatting fail (Python raises KeyError, IndexError or ValueError).
   * Everything between the braces is the name: a format spec, a conversion, an
   * index or an attribute (`{a:>3}`, `{a!r}`, `{a[0]}`, `{a.b}`) is not read as
   * such, so such a field fails unless that whole text is an argument's name.
   */
  function Format(t: string, args: map<string, string>): (r: Option<string>)
    ensures NoBraces(t) ==> r == Some(t)
    decreases |t|
  {
    if t == [] then Some("")
    else if t[0] == '{' then
      if |t| >= 2 && t[1] == '{' then Prepend("{", Format(t[2..], args))
      else
        var j := CloseBrace(t, 1);
        if j == |t| then None
        else
          var name := t[1..j];
          if name == "" || '{' in name || name !in args then None
          else Prepend(args[name], Format(t[j + 1..], args))
    else if t[0] == '}' then
      if |t| >= 2 && t[1] == '}' then Prepend("}", Format(t[2..], args)) else None
    else
      assert [t[0]] + t[1..] == t;
      assert NoBraces(t) ==> NoBraces(t[1..]);
      Prepend([t[0]], Format(t[1..], args))
  }

  predicate NoBraces(t: string) {
    forall i :: 0 <= i < |t| ==> t[i] != '{' && t[i] != '}'
  }

  /** A template without braces formats to itself, whatever the arguments. */
  lemma {:induction false} FormatPlain(t: string, args: map<string, string>)
    requires NoBraces(t)
    ensures Format(t, args) == Some(t)
    decreases |t|
  {
    if t != [] {
      FormatPlain(t[1..], args);
      assert [t[0]] + t[1..] == t;
    }
  }

  /** A lone field is replaced by its argument. */
  lemma FormatField(name: string, args: map<string, string>)
    requires name != "" && NoBraces(name) && name in args
    ensures Format("{" + name + "}", args) == Some(args[name])
  {
    var t := "{" + name + "}";
    assert forall k :: 1 <= k < |t| - 1 ==> t[k] == name[k - 1];
    CloseBraceAt(t, 1, |t| - 1);
    assert t[1..|t| - 1] == name;
    assert t[0] == '{' && t[1] == name[0];
    assert Format(t[|t|..], args) == Some("");
    assert args[name] + "" == args[name];
  }

  /** An argument missing for a field makes the formatting fail. */
  lemma FormatMissingField(name: string, args: map<string, string>)
    requires name != "" && NoBraces(name) && name !in args
    ensures Format("{" + name + "}", args) == None
  {
    var t := "{" + name + "}";
    assert forall k :: 1 <= k < |t| - 1 ==> t[k] == name[k - 1];
    CloseBraceAt(t, 1, |t| - 1);
    assert t[1..|t| - 1] == name;
  }
}
