/** The pieces of Python's `str` that the driver relies on: `strip()`,
    `split(sep)`, whitespace `split()`, `str(int)` and `int(token)`. */
module PyStr {
  import opened Wrappers

  /** The whitespace `strip()` and `split()` remove, as far as ASCII goes:
      the C whitespace set and the four separators U+001C to U+001F, all of
      which Python's `str.isspace` accepts. */
  predicate IsSpace(c: char) {
    c == ' ' || c == '\t' || c == '\n' || c == '\U{0B}' || c == '\U{0C}' || c == '\r'
    || c == '\U{1C}' || c == '\U{1D}' || c == '\U{1E}' || c == '\U{1F}'
  }

  predicate NoSpace(s: string) {
    forall i :: 0 <= i < |s| ==> !IsSpace(s[i])
  }

  /** What `split()` yields: a non-empty run without whitespace. */
  predicate IsWord(w: string) {
    w != [] && NoSpace(w)
  }

  predicate AllSpace(s: string) {
    forall i :: 0 <= i < |s| ==> IsSpace(s[i])
  }

  // ---------------------------------------------------------------- strip

  /** `s.lstrip()`: the longest suffix of `s` that does not start with whitespace. */
  function TrimStart(s: string): (r: string)
    ensures |r| <= |s| && r == s[|s| - |r|..]
    ensures AllSpace(s[..|s| - |r|])
    ensures r == [] || !IsSpace(r[0])
  {
    if s != [] && IsSpace(s[0]) then
      var r := TrimStart(s[1..]);
      assert s[..|s| - |r|] == [s[0]] + s[1..][..|s[1..]| - |r|];
      r
    else s
  }

  /** `s.rstrip()`: the longest prefix of `s` that does not end with whitespace. */
  function TrimEnd(s: string): (r: string)
    ensures |r| <= |s| && r == s[..|r|]
    ensures AllSpace(s[|r|..])
    ensures r == [] || !IsSpace(r[|r| - 1])
  {
    if s != [] && IsSpace(s[|s| - 1]) then
      var r := TrimEnd(s[..|s| - 1]);
      assert s[|r|..] == s[..|s| - 1][|r|..] + [s[|s| - 1]];
      r
    else s
  }

  /** `s.strip()`: the text left between some leading and some trailing
      whitespace, neither starting nor ending with whitespace itself. */
  function Strip(s: string): (r: string)
    ensures r == [] || (!IsSpace(r[0]) && !IsSpace(r[|r| - 1]))
    ensures exists pre, post :: AllSpace(pre) && AllSpace(post) && s == pre + r + post
  {
    var t := TrimStart(s);
    var r := TrimEnd(t);
    Padding(s, t, r);
    r
  }

  /** A suffix `t` of `s` that follows only whitespace and does not start
      with any, and a prefix `r` of `t` that precedes only whitespace and does
      not end with any, leave `r` as the stripped core of `s`. */
  lemma Padding(s: string, t: string, r: string)
    requires |t| <= |s| && t == s[|s| - |t|..] && AllSpace(s[..|s| - |t|])
    requires t == [] || !IsSpace(t[0])
    requires |r| <= |t| && r == t[..|r|] && AllSpace(t[|r|..])
    requires r == [] || !IsSpace(r[|r| - 1])
    ensures r == [] || (!IsSpace(r[0]) && !IsSpace(r[|r| - 1]))
    ensures exists pre, post :: AllSpace(pre) && AllSpace(post) && s == pre + r + post
  {
    var pre, post := s[..|s| - |t|], t[|r|..];
    assert s == pre + t;
    assert t == r + post;
    assert s == pre + r + post;
    assert r != [] ==> r[0] == t[0];
  }

  /** Stripping recovers the core of any text padded with whitespace on
      both sides, provided the core itself is not padded. */
  lemma StripPadded(a: string, m: string, b: string)
    requires AllSpace(a) && AllSpace(b)
    requires m == [] || (!IsSpace(m[0]) && !IsSpace(m[|m| - 1]))
    ensures Strip(a + m + b) == m
  {
    if m == [] {
      assert a + m + b == a + b;
      TrimStartAllSpace(a + b);
    } else {
      assert a + m + b == a + (m + b);
      TrimStartPadded(a, m + b);
      TrimEndPadded(m, b);
    }
  }

  lemma {:induction false} TrimStartAllSpace(s: string)
    requires AllSpace(s)
    ensures TrimStart(s) == []
    decreases |s|
  {
    if s != [] {
      TrimStartAllSpace(s[1..]);
    }
  }

  lemma {:induction false} TrimStartPadded(a: string, t: string)
    requires AllSpace(a)
    requires t == [] || !IsSpace(t[0])
    ensures TrimStart(a + t) == t
    decreases |a|
  {
    if a == [] {
      assert a + t == t;
    } else {
      assert (a + t)[1..] == a[1..] + t;
      TrimStartPadded(a[1..], t);
    }
  }

  lemma {:induction false} TrimEndPadded(m: string, b: string)
    requires AllSpace(b)
    requires m == [] || !IsSpace(m[|m| - 1])
    ensures TrimEnd(m + b) == m
    decreases |b|
  {
    if b == [] {
      assert m + b == m;
    } else {
      assert (m + b)[..|m + b| - 1] == m + b[..|b| - 1];
      TrimEndPadded(m, b[..|b| - 1]);
    }
  }

  // ---------------------------------------------------------------- split(sep)

  /** `s.split(sep)` for a one-character separator: every piece between
      separators, empty pieces included, so an empty string gives `[""]`. */
  function Split(s: string, sep: char): (parts: seq<string>)
    ensures |parts| >= 1
    ensures forall i :: 0 <= i < |parts| ==> sep !in parts[i]
    ensures sep in s <==> |parts| >= 2
  {
    if s == [] then [[]]
    else
      var rest := Split(s[1..], sep);
      if s[0] == sep then [[]] + rest else [[s[0]] + rest[0]] + rest[1..]
  }

  /** `sep.join(parts)`, the inverse of `Split`. */
  function Join(parts: seq<string>, sep: char): string
  {
    if parts == [] then []
    else if |parts| == 1 then parts[0]
    else parts[0] + [sep] + Join(parts[1..], sep)
  }

  /** The first piece is exactly the text before the first separator. */
  lemma {:induction false} SplitAt(a: string, sep: char, b: string)
    requires sep !in a
    ensures Split(a + [sep] + b, sep) == [a] + Split(b, sep)
    decreases |a|
  {
    if a == [] {
      assert a + [sep] + b == [sep] + b;
      assert ([sep] + b)[1..] == b;
    } else {
      assert (a + [sep] + b)[1..] == a[1..] + [sep] + b;
      SplitAt(a[1..], sep, b);
      assert [a[0]] + a[1..] == a;
    }
  }

  lemma {:induction false} SplitNoSep(s: string, sep: char)
    requires sep !in s
    ensures Split(s, sep) == [s]
    decreases |s|
  {
    if s != [] {
      SplitNoSep(s[1..], sep);
      assert [s[0]] + s[1..] == s;
    }
  }

  /** Joining the pieces gives back the text that was split. */
  lemma {:induction false} JoinSplit(s: string, sep: char)
    ensures Join(Split(s, sep), sep) == s
    decreases |s|
  {
    if s != [] {
      var rest := Split(s[1..], sep);
      JoinSplit(s[1..], sep);
      if s[0] == sep {
        assert Join([[]] + rest, sep) == [] + [sep] + Join(rest, sep);
      } else {
        JoinConsChar(s[0], rest, sep);
      }
      assert [s[0]] + s[1..] == s;
    }
  }

  lemma JoinConsChar(c: char, parts: seq<string>, sep: char)
    requires |parts| >= 1
    ensures Join([[c] + parts[0]] + parts[1..], sep) == [c] + Join(parts, sep)
  {
    var ps := [[c] + parts[0]] + parts[1..];
    if |parts| > 1 {
      assert ps[1..] == parts[1..];
    }
  }

  /** Splitting a join of separator-free pieces gives the pieces back. */
  lemma {:induction false} SplitJoin(parts: seq<string>, sep: char)
    requires |parts| >= 1
    requires forall i :: 0 <= i < |parts| ==> sep !in parts[i]
    ensures Split(Join(parts, sep), sep) == parts
    decreases |parts|
  {
    if |parts| == 1 {
      SplitNoSep(parts[0], sep);
    } else {
      SplitAt(parts[0], sep, Join(parts[1..], sep));
      SplitJoin(parts[1..], sep);
      assert [parts[0]] + parts[1..] == parts;
    }
  }

  // ---------------------------------------------------------------- split()

  /** Length of the leading run of non-whitespace characters. */
  function WordLength(t: string): (n: nat)
    ensures n <= |t| && NoSpace(t[..n])
    ensures n < |t| ==> IsSpace(t[n])
  {
    if t == [] || IsSpace(t[0]) then 0 else 1 + WordLength(t[1..])
  }

  /** `s.split()`: the maximal runs of non-whitespace characters, in order. */
  function Words(s: string): (ws: seq<string>)
    ensures forall i :: 0 <= i < |ws| ==> IsWord(ws[i])
    decreases |s|
  {
    var t := TrimStart(s);
    if t == [] then []
    else
      var n := WordLength(t);
      var rest := Words(t[n..]);
      AllWordsCons(t[..n], rest);
      [t[..n]] + rest
  }

  lemma AllWordsCons(w: string, ws: seq<string>)
    requires IsWord(w)
    requires forall i :: 0 <= i < |ws| ==> IsWord(ws[i])
    ensures forall i :: 0 <= i < |ws| + 1 ==> IsWord(([w] + ws)[i])
  {
    forall i | 0 <= i < |ws| + 1
      ensures IsWord(([w] + ws)[i])
    {
      if i > 0 {
        assert ([w] + ws)[i] == ws[i - 1];
      }
    }
  }

  /** Words joined by single spaces are split back into the same words. */
  lemma {:induction false} WordsJoin(ws: seq<string>)
    requires forall i :: 0 <= i < |ws| ==> IsWord(ws[i])
    ensures Words(Join(ws, ' ')) == ws
    decreases |ws|
  {
    if |ws| == 1 {
      WordsJoinOne(ws[0]);
    } else if |ws| > 1 {
      var tail := ws[1..];
      assert forall i :: 0 <= i < |tail| ==> IsWord(tail[i]) by {
        forall i | 0 <= i < |tail| ensures IsWord(tail[i]) {
          assert tail[i] == ws[i + 1];
        }
      }
      calc {
        Words(Join(ws, ' '));
      == { WordsJoinStep(ws); }
        [ws[0]] + Words(Join(tail, ' '));
      == { WordsJoin(tail); }
        [ws[0]] + tail;
      == { assert [ws[0]] + tail == ws; }
        ws;
      }
    }
  }

  lemma WordsJoinOne(w: string)
    requires IsWord(w)
    ensures Words(Join([w], ' ')) == [w]
  {
    assert w + [] == w;
    WordAtStart(w, []);
  }

  lemma WordsJoinStep(ws: seq<string>)
    requires |ws| > 1 && IsWord(ws[0])
    ensures Words(Join(ws, ' ')) == [ws[0]] + Words(Join(ws[1..], ' '))
  {
    var rest := Join(ws[1..], ' ');
    assert Join(ws, ' ') == ws[0] + ([' '] + rest);
    WordAtStart(ws[0], [' '] + rest);
    WordsAfterSpace(rest);
  }

  lemma WordsAfterSpace(s: string)
    ensures Words([' '] + s) == Words(s)
  {
    assert ([' '] + s)[1..] == s;
    assert TrimStart([' '] + s) == TrimStart(s);
  }

  /** A word at the very start of the text is the first word, and the rest
      is split independently. */
  lemma {:induction false} WordAtStart(w: string, rest: string)
    requires IsWord(w)
    requires rest == [] || IsSpace(rest[0])
    ensures Words(w + rest) == [w] + Words(rest)
  {
    var t := w + rest;
    assert TrimStart(t) == t;
    WordLengthOf(w, rest);
    assert t[..|w|] == w && t[|w|..] == rest;
  }

  lemma {:induction false} WordLengthOf(w: string, rest: string)
    requires NoSpace(w)
    requires rest == [] || IsSpace(rest[0])
    ensures WordLength(w + rest) == |w|
    decreases |w|
  {
    if w == [] {
      assert w + rest == rest;
    } else {
      assert (w + rest)[1..] == w[1..] + rest;
      WordLengthOf(w[1..], rest);
    }
  }

  /** A word followed by a space comes first, ahead of the words after the space. */
  lemma WordThenSpace(w: string, rest: string)
    requires IsWord(w)
    ensures Words(w + ([' '] + rest)) == [w] + Words(rest)
  {
    WordAtStart(w, [' '] + rest);
    WordsAfterSpace(rest);
  }

  /** The third of three space-separated words is the third word. */
  lemma ThirdWord(a: string, b: string, d: string, t: string)
    requires IsWord(a) && IsWord(b) && IsWord(d)
    requires t == [] || IsSpace(t[0])
    ensures var ws := Words(a + ([' '] + (b + ([' '] + (d + t)))));
      |ws| >= 3 && ws[2] == d
  {
    var ws3 := Words(d + t);
    var ws2 := Words(b + ([' '] + (d + t)));
    var ws1 := Words(a + ([' '] + (b + ([' '] + (d + t)))));
    WordAtStart(d, t);
    WordThenSpace(b, d + t);
    WordThenSpace(a, b + ([' '] + (d + t)));
    ThirdOf(a, b, d, Words(t));
  }

  lemma ThirdOf<X>(a: X, b: X, d: X, rest: seq<X>)
    ensures var s := [a] + ([b] + ([d] + rest));
      |s| >= 3 && s[2] == d
  {
  }

  /** Two space-separated words and nothing else. */
  lemma TwoWords(a: string, b: string, t: string)
    requires IsWord(a) && IsWord(b) && AllSpace(t)
    ensures |Words(a + ([' '] + (b + t)))| == 2
  {
    var ws2 := Words(b + t);
    WordAtStart(b, t);
    AllSpaceNoWords(t);
    WordThenSpace(a, b + t);
  }

  lemma AllSpaceNoWords(t: string)
    requires AllSpace(t)
    ensures Words(t) == []
  {
    TrimStartAllSpace(t);
  }

  // ---------------------------------------------------------------- readline()

  /** `f.readline()` on a file holding `text`: everything up to and including
      the first newline, or the whole text when it has none. */
  function ReadLine(text: string): (line: string)
    ensures line <= text
    ensures '\n' !in text ==> line == text
    ensures '\n' in text ==> |line| > 0 && line[|line| - 1] == '\n' && '\n' !in line[..|line| - 1]
  {
    if text == [] then []
    else if text[0] == '\n' then ['\n']
    else [text[0]] + ReadLine(text[1..])
  }

  /** The first line is read up to its newline whatever follows it. */
  lemma ReadLineOf(line: string, rest: string)
    requires '\n' !in line
    ensures ReadLine(line + "\n" + rest) == line + "\n"
  {
    var text := line + "\n" + rest;
    var r := ReadLine(text);
    assert text[|line|] == '\n';
    assert r == text[..|line| + 1];
  }

  // ---------------------------------------------------------------- integers

  predicate IsDigit(c: char) {
    '0' <= c <= '9'
  }

  predicate AllDigits(s: string) {
    forall i :: 0 <= i < |s| ==> IsDigit(s[i])
  }

  function DigitChar(d: nat): (c: char)
    requires d < 10
    ensures IsDigit(c)
  {
    ('0' as int + d) as char
  }

  function DigitValue(c: char): (d: nat)
    requires IsDigit(c)
    ensures d < 10 && DigitChar(d) == c
  {
    c as int - '0' as int
  }

  /** Decimal digits of a natural number, most significant first. */
  function NatToDecimal(n: nat): (s: string)
    ensures s != [] && AllDigits(s)
    ensures |s| > 1 ==> s[0] != '0'
  {
    if n < 10 then [DigitChar(n)] else NatToDecimal(n / 10) + [DigitChar(n % 10)]
  }

  /** The number a string of decimal digits denotes. */
  function DigitsValue(s: string): nat
    requires AllDigits(s)
  {
    if s == [] then 0 else DigitsValue(s[..|s| - 1]) * 10 + DigitValue(s[|s| - 1])
  }

  /** Python's `str(n)` for an integer: a minus sign exactly for a
      negative number, then decimal digits. */
  function IntToDecimal(n: int): (r: string)
    ensures r != [] && (r[0] == '-' <==> n < 0)
    ensures AllDigits(if n < 0 then r[1..] else r)
  {
    if n < 0 then "-" + NatToDecimal(-n) else NatToDecimal(n)
  }

  /** Python's `int(token)` on a token without whitespace: an optional sign
      and at least one decimal digit; anything else is `None` (a `ValueError`). */
  function ParseInt(s: string): (r: Option<int>)
    ensures r.Some? <==> s != [] && AllDigits(s[1..])
                         && (IsDigit(s[0]) || ((s[0] == '-' || s[0] == '+') && |s| >= 2))
    ensures r.Some? && r.value < 0 ==> s[0] == '-'
  {
    var signed := s != [] && (s[0] == '-' || s[0] == '+');
    var digits := if signed then s[1..] else s;
    if digits == [] || !AllDigits(digits) then None
    else if signed && s[0] == '-' then Some(0 - DigitsValue(digits))
    else Some(DigitsValue(digits))
  }

  lemma {:induction false} DigitsOfNat(n: nat)
    ensures DigitsValue(NatToDecimal(n)) == n
    decreases n
  {
    var s := NatToDecimal(n);
    if n >= 10 {
      DigitsOfNat(n / 10);
      assert s[..|s| - 1] == NatToDecimal(n / 10);
    }
  }

  /** `int(str(n)) == n`: the text written for an integer reads back as it. */
  lemma ParseIntDecimal(n: int)
    ensures ParseInt(IntToDecimal(n)) == Some(n)
  {
    if n < 0 {
      ParseNegative(-n);
      assert IntToDecimal(n) == "-" + NatToDecimal(-n);
    } else {
      ParseNatural(n);
    }
  }

  /** The digits of a natural number read back as it. */
  lemma ParseNatural(n: nat)
    ensures ParseInt(NatToDecimal(n)) == Some(n)
  {
    var d := NatToDecimal(n);
    DigitsOfNat(n);
    assert IsDigit(d[0]) && d[0] != '-' && d[0] != '+';
    assert ParseInt(d) == Some(DigitsValue(d));
  }

  /** A minus sign before the digits of a natural number reads back as its
      negation. */
  lemma ParseNegative(n: nat)
    ensures ParseInt("-" + NatToDecimal(n)) == Some(-(n as int))
  {
    var s, d := "-" + NatToDecimal(n), NatToDecimal(n);
    DigitsOfNat(n);
    assert s[0] == '-' && s[1..] == d;
    assert ParseInt(s) == Some(0 - DigitsValue(d));
  }

  /** The text written for an integer is a word: no whitespace and no
      separator a report or a command line would split on. */
  lemma DecimalIsWord(n: int)
    ensures IntToDecimal(n) != [] && NoSpace(IntToDecimal(n))
    ensures ':' !in IntToDecimal(n)
  {
    var s := IntToDecimal(n);
    if n < 0 {
      assert s[1..] == NatToDecimal(-n);
    }
  }
}
