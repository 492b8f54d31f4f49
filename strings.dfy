/** The Python string operations the core relies on: str(int), int(str), sep.join, str.split and
    str.format with one positional argument. */
module Strings {
  import opened Wrappers
  import opened Errors

  predicate IsDigit(c: char) {
    '0' <= c <= '9'
  }

  predicate AllDigits(s: string) {
    forall i :: 0 <= i < |s| ==> IsDigit(s[i])
  }

  function DigitChar(d: nat): char
    requires d < 10
  {
    (('0' as int) + d) as char
  }

  /** The decimal digits of n, most significant first, without leading zeros. */
  function NatDigits(n: nat): (s: string)
    ensures |s| > 0 && AllDigits(s)
    ensures s[0] == '0' ==> n == 0
    decreases n
  {
    if n < 10 then [DigitChar(n)] else NatDigits(n / 10) + [DigitChar(n % 10)]
  }

  /** The number a non-empty run of ASCII digits denotes. */
  function DigitsValue(s: string): nat
    requires AllDigits(s)
  {
    if s == [] then 0
    else
      assert IsDigit(s[|s| - 1]);
      DigitsValue(s[..|s| - 1]) * 10 + ((s[|s| - 1] as int) - ('0' as int))
  }

  /** Python's str() of an int. */
  function DecimalString(n: int): (s: string)
    ensures n >= 0 ==> |s| > 0 && AllDigits(s)
    ensures n < 0 ==> |s| > 1 && s[0] == '-' && AllDigits(s[1..])
    ensures n >= 0 && s[0] == '0' ==> n == 0
    ensures n < 0 ==> s[1] != '0'
  {
    if n < 0 then "-" + NatDigits(-n) else NatDigits(n)
  }

  /** Python's int() of a str, for an optional sign followed by ASCII digits; None is the ValueError
      int() raises for anything else. */
  function ParseInt(s: string): (r: Option<int>)
    ensures s == [] ==> r == None
    ensures |s| > 0 && !IsDigit(s[0]) && s[0] != '-' && s[0] != '+' ==> r == None
    ensures |s| > 0 && AllDigits(s) ==> r == Some(DigitsValue(s))
    ensures r.Some? && |s| > 0 && s[0] == '-' ==> r.value <= 0
    ensures r.Some? <==> (|s| > 0 && AllDigits(s)) || (|s| > 1 && (s[0] == '-' || s[0] == '+') && AllDigits(s[1..]))
    ensures |s| > 1 && (s[0] == '-' || s[0] == '+') && AllDigits(s[1..]) ==>
      r == Some((if s[0] == '-' then -1 else 1) * DigitsValue(s[1..]))
  {
    if |s| > 1 && (s[0] == '-' || s[0] == '+') && AllDigits(s[1..]) then
      var magnitude: int := DigitsValue(s[1..]);
      Some(if s[0] == '-' then -magnitude else magnitude)
    else if |s| > 0 && AllDigits(s) then Some(DigitsValue(s))
    else None
  }

  lemma {:induction false} DigitsValueOfNatDigits(n: nat)
    ensures DigitsValue(NatDigits(n)) == n
    decreases n
  {
    if n >= 10 {
      var s := NatDigits(n);
      assert s[..|s| - 1] == NatDigits(n / 10);
      DigitsValueOfNatDigits(n / 10);
    }
  }

  /** A header written with str() is read back by int(). */
  lemma ParseIntDecimalString(n: int)
    ensures ParseInt(DecimalString(n)) == Some(n)
  {
    if n < 0 {
      var s := DecimalString(n);
      assert s[1..] == NatDigits(-n);
      DigitsValueOfNatDigits(-n);
    } else {
      DigitsValueOfNatDigits(n);
    }
  }

  /** `needle in haystack` for two strings. */
  predicate IsSubstring(needle: string, haystack: string) {
    needle <= haystack || (haystack != [] && IsSubstring(needle, haystack[1..]))
  }

  /** sep.join(xs) */
  function Join(xs: seq<string>, sep: string): (r: string)
    ensures xs == [] ==> r == ""
    ensures |xs| >= 1 ==> xs[0] <= r
    ensures |xs| >= 2 ==> xs[0] + sep <= r
  {
    if xs == [] then "" else if |xs| == 1 then xs[0] else xs[0] + sep + Join(xs[1..], sep)
  }

  /** s.split(sep) for a one-character separator: always at least one part. */
  function Split(s: string, sep: char): (parts: seq<string>)
    ensures |parts| >= 1
  {
    if s == [] then [""]
    else
      var rest := Split(s[1..], sep);
      if s[0] == sep then [""] + rest else [[s[0]] + rest[0]] + rest[1..]
  }

  lemma {:induction false} SplitWithout(a: string, sep: char)
    requires sep !in a
    ensures Split(a, sep) == [a]
  {
    if a != [] {
      assert a[0] != sep && [a[0]] + a[1..] == a;
      SplitWithout(a[1..], sep);
    }
  }

  lemma {:induction false} SplitAfterPart(a: string, sep: char, rest: string)
    requires sep !in a
    ensures Split(a + [sep] + rest, sep) == [a] + Split(rest, sep)
  {
    if a == [] {
      assert a + [sep] + rest == [sep] + rest;
    } else {
      var t := a + [sep] + rest;
      assert t[0] == a[0] != sep && t[1..] == a[1..] + [sep] + rest;
      assert [a[0]] + a[1..] == a;
      SplitAfterPart(a[1..], sep, rest);
    }
  }

  /** Splitting a comma join gives the parts back, provided no part holds the separator and there
      is at least one part ("".split(",") is [""], not []). */
  lemma {:induction false} SplitJoin(xs: seq<string>, sep: char)
    requires |xs| >= 1
    requires forall i :: 0 <= i < |xs| ==> sep !in xs[i]
    ensures Split(Join(xs, [sep]), sep) == xs
  {
    if |xs| == 1 {
      SplitWithout(xs[0], sep);
    } else {
      SplitAfterPart(xs[0], sep, Join(xs[1..], [sep]));
      SplitJoin(xs[1..], sep);
    }
  }

  /** How a format string has numbered its replacement fields so far. */
  datatype Numbering = Unnumbered | Automatic | Manual

  predicate NoBraces(s: string) {
    '{' !in s && '}' !in s
  }

  function Prepend(p: string, r: Result<string, Error>): Result<string, Error> {
    if r.Ok? then Ok(p + r.value) else r
  }

  /** template.format(arg): "{{" and "}}" are literal braces, "{}" and "{0}" stand for arg; a second
      automatic field asks for a second argument (IndexError), mixing the two numberings and any
      other use of a brace raise. */
  function Format(template: string, arg: string): (r: Result<string, Error>)
    ensures NoBraces(template) ==> r == Ok(template)
  {
    if NoBraces(template) then
      FormatBraceFree(template, [], arg, Unnumbered);
      assert template + [] == template;
      assert Prepend(template, FormatFrom([], arg, Unnumbered)) == Ok(template + []);
      FormatFrom(template, arg, Unnumbered)
    else FormatFrom(template, arg, Unnumbered)
  }

  function FormatFrom(t: string, arg: string, mode: Numbering): Result<string, Error>
    decreases |t|
  {
    if t == [] then Ok([])
    else if |t| >= 2 && t[..2] == "{{" then Prepend("{", FormatFrom(t[2..], arg, mode))
    else if |t| >= 2 && t[..2] == "}}" then Prepend("}", FormatFrom(t[2..], arg, mode))
    else if |t| >= 2 && t[..2] == "{}" then
      if mode == Manual then Err(ValueError)
      else if mode == Automatic then Err(IndexError)
      else Prepend(arg, FormatFrom(t[2..], arg, Automatic))
    else if |t| >= 3 && t[..3] == "{0}" then
      if mode == Automatic then Err(ValueError)
      else Prepend(arg, FormatFrom(t[3..], arg, Manual))
    else if t[0] == '{' || t[0] == '}' then Err(ValueError)
    else Prepend([t[0]], FormatFrom(t[1..], arg, mode))
  }

  lemma {:induction false} FormatBraceFree(p: string, rest: string, arg: string, mode: Numbering)
    requires NoBraces(p)
    ensures FormatFrom(p + rest, arg, mode) == Prepend(p, FormatFrom(rest, arg, mode))
  {
    if p != [] {
      var t := p + rest;
      assert t[0] == p[0] && t[1..] == p[1..] + rest;
      assert t[0] != '{' && t[0] != '}';
      assert |t| >= 2 ==> t[..2][0] == t[0];
      assert |t| >= 3 ==> t[..3][0] == t[0];
      FormatBraceFree(p[1..], rest, arg, mode);
      assert FormatFrom(t, arg, mode) == Prepend([p[0]], FormatFrom(p[1..] + rest, arg, mode));
      var r := FormatFrom(rest, arg, mode);
      assert r.Ok? ==> [p[0]] + (p[1..] + r.value) == p + r.value;
    } else {
      assert p + rest == rest;
      var r := FormatFrom(rest, arg, mode);
      assert r.Ok? ==> p + r.value == r.value;
    }
  }

  /** A template with one "{}" and no other brace is its text with the argument in the field's place. */
  lemma FormatOneField(prefix: string, suffix: string, arg: string)
    requires NoBraces(prefix) && NoBraces(suffix)
    ensures Format(prefix + "{}" + suffix, arg) == Ok(prefix + arg + suffix)
  {
    assert prefix + "{}" + suffix == prefix + ("{}" + suffix);
    FormatBraceFree(prefix, "{}" + suffix, arg, Unnumbered);
    var t := "{}" + suffix;
    assert t[..2] == "{}" && t[2..] == suffix;
    FormatBraceFree(suffix, [], arg, Automatic);
    assert suffix + [] == suffix;
    assert FormatFrom(t, arg, Unnumbered) == Ok(arg + suffix);
    assert prefix + (arg + suffix) == prefix + arg + suffix;
  }

  /** A template with two automatic fields raises, whatever surrounds them. */
  lemma FormatTwoFields(prefix: string, middle: string, suffix: string, arg: string)
    requires NoBraces(prefix) && NoBraces(middle)
    ensures Format(prefix + "{}" + middle + "{}" + suffix, arg) == Err(IndexError)
  {
    var t := prefix + "{}" + middle + "{}" + suffix;
    assert t == prefix + ("{}" + (middle + "{}" + suffix));
    FormatBraceFree(prefix, "{}" + (middle + "{}" + suffix), arg, Unnumbered);
    var u := "{}" + (middle + "{}" + suffix);
    assert u[..2] == "{}" && u[2..] == middle + ("{}" + suffix);
    FormatBraceFree(middle, "{}" + suffix, arg, Automatic);
    var w := "{}" + suffix;
    assert w[..2] == "{}";
  }
}
