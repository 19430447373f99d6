/** The string operations of Python's `str` that the client relies on:
    `strip`, `lower`/`upper` (ASCII), `isdigit` (ASCII), `split`/`join` on a
    separator, `startswith`, the `in` substring test, `str(int)` and `int(str)`. */
module Text {
  import opened Wrappers
  import opened Seqs

  /** The ASCII characters for which Python's `str.isspace` holds. */
  predicate IsSpace(c: char) {
    c == ' ' || c == '\t' || c == '\n' || c == '\r'
    || c == '\U{000B}' || c == '\U{000C}'
    || c == '\U{001C}' || c == '\U{001D}' || c == '\U{001E}' || c == '\U{001F}'
  }

  predicate IsDigit(c: char) {
    '0' <= c <= '9'
  }

  /** Python's `str.isdigit` on ASCII text: non-empty and digits only. */
  predicate IsDigits(s: string) {
    |s| > 0 && forall i :: 0 <= i < |s| ==> IsDigit(s[i])
  }

  predicate AllSpace(s: string) {
    forall i :: 0 <= i < |s| ==> IsSpace(s[i])
  }

  /** `s.rstrip()`: trailing white space removed. */
  function StripRight(s: string): (r: string)
    ensures |r| <= |s| && r == s[..|r|]
    ensures r != [] ==> !IsSpace(r[|r| - 1])
    ensures AllSpace(s[|r|..])
  {
    if s != [] && IsSpace(s[|s| - 1]) then StripRight(s[..|s| - 1]) else s
  }

  /** Python's `str.strip()`: leading and trailing white space removed. */
  function Strip(s: string): (r: string)
    ensures r == [] || (!IsSpace(r[0]) && !IsSpace(r[|r| - 1]))
    ensures r == [] <==> AllSpace(s)
    ensures s == [] || (!IsSpace(s[0]) && !IsSpace(s[|s| - 1])) ==> r == s
    decreases |s|
  {
    if s != [] && IsSpace(s[0]) then
      assert AllSpace(s) <==> AllSpace(s[1..]) by {
        assert forall i :: 0 <= i < |s| - 1 ==> s[1..][i] == s[i + 1];
      }
      Strip(s[1..])
    else
      var r := StripRight(s);
      assert r == [] ==> s[|r|..] == s;
      r
  }

  /** `r` is the slice of `s` at offset `i`, with only white space around it. */
  predicate IsTrimOf(r: string, s: string, i: nat) {
    i + |r| <= |s| && r == s[i..i + |r|] && AllSpace(s[..i]) && AllSpace(s[i + |r|..])
  }

  /** The stripped text is the input with its leading and trailing white space
      removed and nothing else: a slice of the input between two white-space runs. */
  lemma {:induction false} StripIsTrim(s: string)
    ensures exists i :: IsTrimOf(Strip(s), s, i)
    decreases |s|
  {
    var r := Strip(s);
    if s != [] && IsSpace(s[0]) {
      var t := s[1..];
      assert r == Strip(t);
      StripIsTrim(t);
      var j :| IsTrimOf(r, t, j);
      TrimShift(s, j, r);
    } else {
      assert r == StripRight(s);
      assert IsTrimOf(r, s, 0) by {
        assert r == s[0..|r|] && s[..0] == [] && s[0 + |r|..] == s[|r|..];
      }
    }
  }

  /** One leading white-space character more moves the slice one place right. */
  lemma TrimShift(s: string, j: nat, r: string)
    requires s != [] && IsSpace(s[0]) && IsTrimOf(r, s[1..], j)
    ensures IsTrimOf(r, s, j + 1)
  {
    var t := s[1..];
    assert t[j..j + |r|] == s[j + 1..j + 1 + |r|];
    assert t[j + |r|..] == s[j + 1 + |r|..];
    forall i | 0 <= i <= j
      ensures IsSpace(s[i])
    {
      if i > 0 {
        assert s[i] == t[..j][i - 1];
      }
    }
  }

  function LowerChar(c: char): char {
    if 'A' <= c <= 'Z' then (c as int + 32) as char else c
  }

  function UpperChar(c: char): char {
    if 'a' <= c <= 'z' then (c as int - 32) as char else c
  }

  /** Python's `str.lower()` on ASCII letters. */
  function Lower(s: string): string {
    seq(|s|, i requires 0 <= i < |s| => LowerChar(s[i]))
  }

  /** Python's `str.upper()` on ASCII letters. */
  function Upper(s: string): string {
    seq(|s|, i requires 0 <= i < |s| => UpperChar(s[i]))
  }

  predicate StartsWith(s: string, prefix: string) {
    |prefix| <= |s| && s[..|prefix|] == prefix
  }

  /** Python's `sub in s` for strings. */
  predicate Contains(s: string, sub: string)
    decreases |s|
  {
    StartsWith(s, sub) || (s != [] && Contains(s[1..], sub))
  }

  /** The index of the first occurrence of `c` in `s`. */
  function IndexOf(s: string, c: char): (i: nat)
    requires c in s
    ensures i < |s| && s[i] == c && c !in s[..i]
  {
    if s[0] == c then 0 else
      assert c in s[1..];
      var j := IndexOf(s[1..], c);
      assert s[..j + 1] == [s[0]] + s[1..][..j];
      j + 1
  }

  lemma {:induction false} IndexOfAfter(a: string, c: char, b: string)
    requires c !in a
    ensures c in a + [c] + b && IndexOf(a + [c] + b, c) == |a|
  {
    if a != [] {
      assert (a + [c] + b)[1..] == a[1..] + [c] + b;
      IndexOfAfter(a[1..], c, b);
    }
  }

  /** Python's `s.split(sep)` for a one-character separator. */
  function Split(s: string, sep: char): (parts: seq<string>)
    ensures |parts| >= 1
    ensures forall k :: 0 <= k < |parts| ==> sep !in parts[k]
    decreases |s|
  {
    if sep in s then
      var i := IndexOf(s, sep);
      [s[..i]] + Split(s[i + 1..], sep)
    else
      [s]
  }

  /** Python's `sep.join(parts)`. */
  function Join(sep: string, parts: seq<string>): string
  {
    if |parts| == 0 then ""
    else if |parts| == 1 then parts[0]
    else parts[0] + sep + Join(sep, parts[1..])
  }

  /** Joining the pieces of a split restores the text. */
  lemma {:induction false} JoinSplit(s: string, sep: char)
    ensures Join([sep], Split(s, sep)) == s
    decreases |s|
  {
    if sep in s {
      var i := IndexOf(s, sep);
      var rest := Split(s[i + 1..], sep);
      JoinSplit(s[i + 1..], sep);
      assert Split(s, sep) == [s[..i]] + rest;
      assert Join([sep], Split(s, sep)) == s[..i] + [sep] + Join([sep], rest);
      assert s == s[..i] + [sep] + s[i + 1..];
    }
  }

  /** Splitting a join restores the pieces, provided no piece holds the separator. */
  lemma {:induction false} SplitJoin(parts: seq<string>, sep: char)
    requires |parts| >= 1
    requires forall k :: 0 <= k < |parts| ==> sep !in parts[k]
    ensures Split(Join([sep], parts), sep) == parts
  {
    if |parts| > 1 {
      SplitJoin(parts[1..], sep);
      var rest := Join([sep], parts[1..]);
      assert Join([sep], parts) == parts[0] + [sep] + rest;
      SplitAfterFirst(parts[0], sep, rest);
      assert parts == [parts[0]] + parts[1..];
    }
  }

  /** Splitting at a first separator gives the text before it, then the split of the rest. */
  lemma SplitAfterFirst(a: string, sep: char, b: string)
    requires sep !in a
    ensures Split(a + [sep] + b, sep) == [a] + Split(b, sep)
  {
    var s := a + [sep] + b;
    IndexOfAfter(a, sep, b);
    assert s[..|a|] == a;
    assert s[|a| + 1..] == b;
  }

  function DigitChar(d: nat): char
    requires d < 10
  {
    ('0' as int + d) as char
  }

  /** The value of a run of decimal digits; every caller passes digits only,
      and any other character would count as 0. */
  function DigitsValue(s: string): nat {
    if s == [] then 0
    else
      var c := s[|s| - 1];
      DigitsValue(s[..|s| - 1]) * 10 + (if IsDigit(c) then c as int - '0' as int else 0)
  }

  /** Decimal digits of a natural number, without leading zeros. */
  function NatToStr(n: nat): (r: string)
    ensures IsDigits(r)
    ensures DigitsValue(r) == n
    ensures r == "0" || r[0] != '0'
  {
    if n < 10 then [DigitChar(n)]
    else
      var a := NatToStr(n / 10);
      var r := a + [DigitChar(n % 10)];
      assert r[..|r| - 1] == a;
      assert a != "0" by { assert DigitsValue("0") == 0; }
      r
  }

  /** Python's `str(n)` for an integer. */
  function IntToStr(n: int): string {
    if n < 0 then "-" + NatToStr(-n) else NatToStr(n)
  }

  /** The digit runs Python's `int()` reads: a decimal digit, then digits,
      each of which may follow a single underscore. */
  predicate IsGroupedDigits(s: string)
    decreases |s|
  {
    && |s| > 0 && IsDigit(s[0])
    && (|s| == 1 || if s[1] == '_' then IsGroupedDigits(s[2..]) else IsGroupedDigits(s[1..]))
  }

  /** A grouped run holds only digits and underscores and ends in a digit. */
  lemma {:induction false} GroupedChars(s: string)
    requires IsGroupedDigits(s)
    ensures forall i :: 0 <= i < |s| ==> IsDigit(s[i]) || s[i] == '_'
    ensures IsDigit(s[|s| - 1])
    decreases |s|
  {
    if |s| > 1 {
      var k := if s[1] == '_' then 2 else 1;
      GroupedChars(s[k..]);
      forall i | k <= i < |s|
        ensures IsDigit(s[i]) || s[i] == '_'
      {
        assert s[i] == s[k..][i - k];
      }
      assert s[|s| - 1] == s[k..][|s[k..]| - 1];
    }
  }

  /** The text with its underscores removed. */
  function Ungrouped(s: string): (r: string)
    ensures '_' !in s ==> r == s
  {
    if s == [] then []
    else (if s[0] == '_' then [] else [s[0]]) + Ungrouped(s[1..])
  }

  /** Python's `int(s)` for a string: surrounding white space, an optional
      sign and a grouped digit run; `None` where Python raises `ValueError`. */
  function ParseInt(s: string): Option<int> {
    var t := Strip(s);
    if t == [] then None
    else if t[0] == '-' || t[0] == '+' then
      var digits := t[1..];
      if IsGroupedDigits(digits) then
        var v := DigitsValue(Ungrouped(digits)) as int;
        Some(if t[0] == '-' then -v else v)
      else None
    else if IsGroupedDigits(t) then Some(DigitsValue(Ungrouped(t)))
    else None
  }

  lemma {:induction false} UngroupedConcat(a: string, b: string)
    ensures Ungrouped(a + b) == Ungrouped(a) + Ungrouped(b)
  {
    if a == [] {
      assert a + b == b;
    } else {
      assert (a + b)[0] == a[0] && (a + b)[1..] == a[1..] + b;
      UngroupedConcat(a[1..], b);
      var h := if a[0] == '_' then [] else [a[0]];
      assert Ungrouped(a + b) == h + Ungrouped(a[1..] + b);
      assert Ungrouped(a) == h + Ungrouped(a[1..]);
    }
  }

  /** A plain digit run is a grouped one, with nothing to remove. */
  lemma {:induction false} PlainDigits(t: string)
    requires IsDigits(t)
    ensures IsGroupedDigits(t) && Ungrouped(t) == t
    decreases |t|
  {
    assert '_' !in t by {
      assert forall i :: 0 <= i < |t| ==> t[i] != '_';
    }
    if |t| > 1 {
      assert IsDigits(t[1..]) by {
        assert forall i :: 0 <= i < |t| - 1 ==> t[1..][i] == t[i + 1];
      }
      PlainDigits(t[1..]);
      assert t[1] != '_';
    }
  }

  /** Two digit runs joined by one underscore form a grouped run... */
  lemma {:induction false} GroupedJoin(a: string, b: string)
    requires IsDigits(a) && IsDigits(b)
    ensures IsGroupedDigits(a + "_" + b)
    decreases |a|
  {
    var s := a + "_" + b;
    assert s[0] == a[0];
    if |a| == 1 {
      assert s[1] == '_' && s[2..] == b;
      PlainDigits(b);
    } else {
      var a' := a[1..];
      assert IsDigits(a') by {
        assert forall i :: 0 <= i < |a'| ==> a'[i] == a[i + 1];
      }
      GroupedJoin(a', b);
      assert s[1] == a[1] && s[1..] == a' + "_" + b;
    }
  }

  /** ... whose digits are theirs. */
  lemma UngroupedJoin(a: string, b: string)
    requires IsDigits(a) && IsDigits(b)
    ensures Ungrouped(a + "_" + b) == a + b
  {
    var u: string := "_";
    assert u[0] == '_' && u[1..] == [];
    assert Ungrouped(u) == [];
    UngroupedConcat(a, u);
    PlainDigits(a);
    assert Ungrouped(a + u) == a;
    UngroupedConcat(a + u, b);
    PlainDigits(b);
  }

  /** An underscore between two digit runs is ignored: `int("3_600") == int("3600")`. */
  lemma ParseIntGrouped(a: string, b: string)
    requires IsDigits(a) && IsDigits(b)
    ensures ParseInt(a + "_" + b) == ParseInt(a + b) == Some(DigitsValue(a + b))
  {
    var t := a + b;
    assert IsDigits(t) by {
      forall i | 0 <= i < |t|
        ensures IsDigit(t[i])
      {
        if i < |a| { assert t[i] == a[i]; } else { assert t[i] == b[i - |a|]; }
      }
    }
    GroupedJoin(a, b);
    UngroupedJoin(a, b);
    ParseUnsigned(a + "_" + b);
    PlainDigits(t);
    ParseUnsigned(t);
  }

  /** `int(str(n)) == n`: printing an integer and parsing it back is lossless. */
  lemma ParseIntOfIntToStr(n: int)
    ensures ParseInt(IntToStr(n)) == Some(n)
  {
    var d := NatToStr(if n < 0 then -n else n);
    PlainDigits(d);
    if n < 0 {
      ParseNegative(d);
    } else {
      ParseUnsigned(d);
    }
  }

  lemma StripKeeps(s: string)
    requires s != [] && !IsSpace(s[0]) && !IsSpace(s[|s| - 1])
    ensures Strip(s) == s
  {
  }

  /** A bare grouped run parses to the value of its digits. */
  lemma ParseUnsigned(t: string)
    requires IsGroupedDigits(t)
    ensures ParseInt(t) == Some(DigitsValue(Ungrouped(t)) as int)
  {
    GroupedChars(t);
    StripKeeps(t);
  }

  /** A minus sign before a grouped run negates its value. */
  lemma ParseNegative(d: string)
    requires IsGroupedDigits(d)
    ensures ParseInt("-" + d) == Some(-(DigitsValue(Ungrouped(d)) as int))
  {
    var s := "-" + d;
    assert s[0] == '-' && s[1..] == d;
    ParseSigned(s);
  }

  lemma ParseSigned(t: string)
    requires |t| > 1 && t[0] == '-' && IsGroupedDigits(t[1..])
    ensures ParseInt(t) == Some(-(DigitsValue(Ungrouped(t[1..])) as int))
  {
    var d := t[1..];
    GroupedChars(d);
    assert t[|t| - 1] == d[|d| - 1];
    StripKeeps(t);
  }

  /** Distinct integers print differently. */
  lemma IntToStrInjective(a: int, b: int)
    requires IntToStr(a) == IntToStr(b)
    ensures a == b
  {
    ParseIntOfIntToStr(a);
    ParseIntOfIntToStr(b);
  }
}
