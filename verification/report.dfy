/** The counter report at the end of `runNanoBench`: the output is split
    into lines, each line with a ':' gives a counter name and a value, and
    the pairs go into an ordered dictionary. Python's `float` is the
    abstract partial function `parseFloat` (`None` is its `ValueError`). */
module Report {
  import opened Wrappers
  import opened Effects
  import opened PyStr

  /** An ordered dictionary: the keys in insertion order and the value of each. */
  datatype OrderedDict<F> = OrderedDict(keys: seq<string>, values: map<string, F>)

  predicate NoDuplicates(ks: seq<string>) {
    forall i, j :: 0 <= i < j < |ks| ==> ks[i] != ks[j]
  }

  /** Each key is listed once and has a value. */
  predicate Valid<F>(d: OrderedDict<F>) {
    && NoDuplicates(d.keys)
    && (forall k <- d.keys :: k in d.values)
    && (forall k <- d.values :: k in d.keys)
  }

  /** `d[k] = v`: a new key goes last, an existing key keeps its place and
      takes the new value. */
  function Put<F>(d: OrderedDict<F>, k: string, v: F): (d': OrderedDict<F>)
    requires Valid(d)
    ensures Valid(d')
    ensures d'.keys == if k in d.keys then d.keys else d.keys + [k]
    ensures d'.values == d.values[k := v]
  {
    if k in d.values then OrderedDict(d.keys, d.values[k := v])
    else OrderedDict(d.keys + [k], d.values[k := v])
  }

  /** The counter name and the value text of one output line: the stripped
      text before the first ':' and the stripped text between the first and
      the second ':'; `None` for a line without ':'. */
  function LineFields(line: string): (r: Option<(string, string)>)
    ensures r.Some? <==> ':' in line
    ensures r.Some? ==> ':' !in r.value.0 && ':' !in r.value.1
  {
    if ':' !in line then None
    else
      var parts := Split(line, ':');
      Some((Strip(parts[0]), Strip(parts[1])))
  }

  /** One line's contribution: nothing for a line without ':', otherwise
      its counter set to its value, or the `ValueError` of its value text. */
  function ParseLine<F>(r: OrderedDict<F>, line: string, parseFloat: string -> Option<F>): (result: Result<OrderedDict<F>, Error>)
    requires Valid(r)
    ensures result.Ok? ==> Valid(result.value)
  {
    match LineFields(line)
    case None => Ok(r)
    case Some(f) =>
      match parseFloat(f.1)
      case None => Err(ValueError(f.1))
      case Some(v) => Ok(Put(r, f.0, v))
  }

  /** The counter report of the output lines, or the `ValueError` of the
      first value text `parseFloat` rejects. */
  function Parse<F>(lines: seq<string>, parseFloat: string -> Option<F>): (result: Result<OrderedDict<F>, Error>)
    ensures result.Ok? ==> Valid(result.value)
    decreases |lines|
  {
    if lines == [] then Ok(OrderedDict([], map[]))
    else
      match Parse(lines[..|lines| - 1], parseFloat)
      case Err(e) => Err(e)
      case Ok(r) => ParseLine(r, lines[|lines| - 1], parseFloat)
  }

  lemma ParseSnoc<F>(lines: seq<string>, line: string, parseFloat: string -> Option<F>)
    ensures Parse(lines + [line], parseFloat) ==
      match Parse(lines, parseFloat)
      case Err(e) => Err(e)
      case Ok(r) => ParseLine(r, line, parseFloat)
  {
    assert (lines + [line])[..|lines|] == lines;
  }

  /** Once a value text is rejected, the later lines do not matter. */
  lemma {:induction false} ParseErrorSticks<F>(lines: seq<string>, n: nat, parseFloat: string -> Option<F>)
    requires n <= |lines| && Parse(lines[..n], parseFloat).Err?
    ensures Parse(lines, parseFloat) == Parse(lines[..n], parseFloat)
    decreases |lines| - n
  {
    if n < |lines| {
      assert lines[..n + 1][..n] == lines[..n];
      ParseErrorSticks(lines, n + 1, parseFloat);
    } else {
      assert lines[..n] == lines;
    }
  }

  /** The `for` loop that fills the ordered dictionary. */
  method ParseCounters<F>(output: seq<string>, parseFloat: string -> Option<F>) returns (result: Result<OrderedDict<F>, Error>)
    ensures result == Parse(output, parseFloat)
  {
    var ret: OrderedDict<F> := OrderedDict([], map[]);
    for i := 0 to |output|
      invariant Parse(output[..i], parseFloat) == Ok(ret)
    {
      var line := output[i];
      assert output[..i + 1] == output[..i] + [line];
      ParseSnoc(output[..i], line, parseFloat);
      if ':' !in line {
        continue;
      }
      var lineSplit := Split(line, ':');
      var counter := Strip(lineSplit[0]);
      var text := Strip(lineSplit[1]);
      var value := parseFloat(text);
      if value.None? {
        ParseErrorSticks(output, i + 1, parseFloat);
        return Err(ValueError(text));
      }
      ret := Put(ret, counter, value.value);
    }
    assert output[..|output|] == output;
    return Ok(ret);
  }

  // ------------------------------------------------------------ reference definitions

  /** The counter names of the lines that have one, in output order. */
  function Names(lines: seq<string>): seq<string>
    decreases |lines|
  {
    if lines == [] then []
    else
      var f := LineFields(lines[|lines| - 1]);
      Names(lines[..|lines| - 1]) + (if f.Some? then [f.value.0] else [])
  }

  /** Each name once, in order of first appearance. */
  function FirstSeen(names: seq<string>): seq<string>
    decreases |names|
  {
    if names == [] then []
    else
      var d := FirstSeen(names[..|names| - 1]);
      if names[|names| - 1] in d then d else d + [names[|names| - 1]]
  }

  /** The value text of the last line that names counter `k`. */
  function LastText(lines: seq<string>, k: string): Option<string>
    decreases |lines|
  {
    if lines == [] then None
    else
      var f := LineFields(lines[|lines| - 1]);
      if f.Some? && f.value.0 == k then Some(f.value.1) else LastText(lines[..|lines| - 1], k)
  }

  /** The line has no value text, or `parseFloat` accepts it. */
  predicate ValueParses<F>(line: string, parseFloat: string -> Option<F>) {
    LineFields(line).Some? ==> parseFloat(LineFields(line).value.1).Some?
  }

  /** Every value text of the output is accepted by `parseFloat`. */
  predicate AllValuesParse<F>(lines: seq<string>, parseFloat: string -> Option<F>) {
    forall k :: 0 <= k < |lines| ==> ValueParses(lines[k], parseFloat)
  }

  // ------------------------------------------------------------ lemmas

  lemma FirstSeenNoDuplicates(names: seq<string>)
    ensures NoDuplicates(FirstSeen(names))
    ensures forall n :: n in FirstSeen(names) <==> n in names
  {
    if names != [] {
      FirstSeenNoDuplicates(names[..|names| - 1]);
      assert names == names[..|names| - 1] + [names[|names| - 1]];
    }
  }

  lemma NamesSnoc(lines: seq<string>, line: string)
    ensures Names(lines + [line]) == Names(lines) + (if LineFields(line).Some? then [LineFields(line).value.0] else [])
  {
    assert (lines + [line])[..|lines|] == lines;
  }

  lemma FirstSeenSnoc(names: seq<string>, n: string)
    ensures FirstSeen(names + [n]) == if n in FirstSeen(names) then FirstSeen(names) else FirstSeen(names) + [n]
  {
    assert (names + [n])[..|names|] == names;
  }

  /** Keys appear once each, in the order the names first appear in the output. */
  lemma {:induction false} ParseKeys<F>(lines: seq<string>, parseFloat: string -> Option<F>)
    requires Parse(lines, parseFloat).Ok?
    ensures Parse(lines, parseFloat).value.keys == FirstSeen(Names(lines))
    decreases |lines|
  {
    if lines != [] {
      var init, last := lines[..|lines| - 1], lines[|lines| - 1];
      assert lines == init + [last];
      ParseSnoc(init, last, parseFloat);
      NamesSnoc(init, last);
      ParseKeys(init, parseFloat);
      var r := Parse(init, parseFloat).value;
      var f := LineFields(last);
      if f.Some? {
        var v := parseFloat(f.value.1).value;
        assert Parse(lines, parseFloat) == Ok(Put(r, f.value.0, v));
        FirstSeenSnoc(Names(init), f.value.0);
        assert Names(lines) == Names(init) + [f.value.0];
        assert r.keys == FirstSeen(Names(init));
        assert Put(r, f.value.0, v).keys == FirstSeen(Names(init) + [f.value.0]);
      } else {
        assert Parse(lines, parseFloat) == Ok(r);
        assert Names(lines) == Names(init);
      }
    }
  }

  /** A repeated name keeps its place and takes the value of its last line. */
  lemma {:induction false} ParseValues<F>(lines: seq<string>, parseFloat: string -> Option<F>, k: string)
    requires Parse(lines, parseFloat).Ok?
    ensures var values := Parse(lines, parseFloat).value.values;
      if LastText(lines, k).Some? then k in values && parseFloat(LastText(lines, k).value) == Some(values[k])
      else k !in values
    decreases |lines|
  {
    if lines != [] {
      var init, last := lines[..|lines| - 1], lines[|lines| - 1];
      ParseValues(init, parseFloat, k);
      var r := Parse(init, parseFloat).value;
      var f := LineFields(last);
      if f.None? {
        assert Parse(lines, parseFloat).value == r;
        assert LastText(lines, k) == LastText(init, k);
      } else {
        var v := parseFloat(f.value.1).value;
        assert Parse(lines, parseFloat).value.values == r.values[f.value.0 := v];
        if f.value.0 == k {
          assert LastText(lines, k) == Some(f.value.1);
        } else {
          assert LastText(lines, k) == LastText(init, k);
        }
      }
    }
  }

  /** The report exists exactly when every value text parses. */
  lemma {:induction false} ParseOkIff<F>(lines: seq<string>, parseFloat: string -> Option<F>)
    ensures Parse(lines, parseFloat).Ok? <==> AllValuesParse(lines, parseFloat)
    decreases |lines|
  {
    if lines != [] {
      var init, last := lines[..|lines| - 1], lines[|lines| - 1];
      assert lines == init + [last];
      ParseSnoc(init, last, parseFloat);
      ParseOkIff(init, parseFloat);
      assert AllValuesParse(lines, parseFloat) <==> AllValuesParse(init, parseFloat) && ValueParses(last, parseFloat);
    }
  }

  /** Line `i` is the first whose value text `parseFloat` rejects, and `e`
      is the `ValueError` of that text. */
  predicate FirstRejected<F>(lines: seq<string>, parseFloat: string -> Option<F>, i: int, e: Error) {
    && 0 <= i < |lines|
    && AllValuesParse(lines[..i], parseFloat)
    && !ValueParses(lines[i], parseFloat)
    && e == ValueError(LineFields(lines[i]).value.1)
  }

  lemma {:induction false} FirstRejectedExtends<F>(lines: seq<string>, line: string, parseFloat: string -> Option<F>, i: int, e: Error)
    requires FirstRejected(lines, parseFloat, i, e)
    ensures FirstRejected(lines + [line], parseFloat, i, e)
  {
    PrefixUnchanged(lines, line, parseFloat, i);
    assert (lines + [line])[i] == lines[i];
  }

  lemma PrefixUnchanged<F>(lines: seq<string>, line: string, parseFloat: string -> Option<F>, i: int)
    requires 0 <= i < |lines| && AllValuesParse(lines[..i], parseFloat)
    ensures AllValuesParse((lines + [line])[..i], parseFloat)
  {
    assert (lines + [line])[..i] == lines[..i];
  }

  /** A failed parse reports the value text of the first line whose value
      text `parseFloat` rejects. */
  lemma {:induction false} ParseErrorNamesLine<F>(lines: seq<string>, parseFloat: string -> Option<F>)
    requires Parse(lines, parseFloat).Err?
    ensures exists i :: FirstRejected(lines, parseFloat, i, Parse(lines, parseFloat).error)
    decreases |lines|
  {
    var init, last := lines[..|lines| - 1], lines[|lines| - 1];
    assert lines == init + [last];
    ParseSnoc(init, last, parseFloat);
    var e := Parse(lines, parseFloat).error;
    if Parse(init, parseFloat).Err? {
      ParseErrorNamesLine(init, parseFloat);
      var i :| FirstRejected(init, parseFloat, i, e);
      FirstRejectedExtends(init, last, parseFloat, i, e);
    } else {
      ParseOkIff(init, parseFloat);
      var r := Parse(init, parseFloat).value;
      assert Parse(lines, parseFloat) == ParseLine(r, last, parseFloat);
      ParseLineRejects(r, last, parseFloat);
      assert lines[..|init|] == init && lines[|init|] == last;
      assert FirstRejected(lines, parseFloat, |init|, e);
    }
  }

  /** A line that fails is one whose value text is rejected, and the
      failure is that text's `ValueError`. */
  lemma ParseLineRejects<F>(r: OrderedDict<F>, line: string, parseFloat: string -> Option<F>)
    requires Valid(r) && ParseLine(r, line, parseFloat).Err?
    ensures !ValueParses(line, parseFloat)
    ensures ParseLine(r, line, parseFloat).error == ValueError(LineFields(line).value.1)
  {
  }

  /** Lines without ':' are skipped wherever they stand. */
  lemma {:induction false} ParseSkipsPlainLine<F>(a: seq<string>, line: string, b: seq<string>, parseFloat: string -> Option<F>)
    requires ':' !in line
    ensures Parse(a + [line] + b, parseFloat) == Parse(a + b, parseFloat)
    decreases |b|
  {
    if b == [] {
      assert a + [line] + b == a + [line] && a + b == a;
      ParseSnoc(a, line, parseFloat);
    } else {
      var b', x := b[..|b| - 1], b[|b| - 1];
      assert b == b' + [x];
      assert a + [line] + b == (a + [line] + b') + [x];
      assert a + b == (a + b') + [x];
      ParseSkipsPlainLine(a, line, b', parseFloat);
      ParseSnoc(a + [line] + b', x, parseFloat);
      ParseSnoc(a + b', x, parseFloat);
    }
  }

  /** The name is the stripped text before the first ':', the value text
      the stripped text between the first and the second ':'. */
  lemma LineFieldsOf(name: string, value: string, rest: string)
    requires ':' !in name && ':' !in value
    ensures LineFields(name + ":" + value) == Some((Strip(name), Strip(value)))
    ensures LineFields(name + ":" + value + ":" + rest) == Some((Strip(name), Strip(value)))
  {
    SplitAt(name, ':', value);
    SplitNoSep(value, ':');
    assert name + ":" + value == name + [':'] + value;
    assert name + [':'] + value in [name + [':'] + value];
    var line := name + ":" + value + ":" + rest;
    assert line == name + [':'] + (value + [':'] + rest);
    assert ':' in line by { assert line[|name|] == ':'; }
    SplitAt(name, ':', value + [':'] + rest);
    SplitAt(value, ':', rest);
  }
}
