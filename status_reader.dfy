/**
 * The status reader: turns the exit code and the text printed by `upsc <ups>`
 * into a map from NUT variable name to value (`read_ups`). The subprocess
 * call itself is not modelled; its result is the input.
 */
module StatusReader {
  import opened Wrappers
  import opened Text

  /**
   * One output line `name: value`: split at the FIRST colon, both sides
   * stripped. A line without a colon contributes nothing.
   */
  function SplitField(line: string): (r: Option<(string, string)>)
    ensures r.None? <==> Lacks(line, ':')
    ensures r.Some? ==> Lacks(r.value.0, ':') && NoEdgeSpace(r.value.0) && NoEdgeSpace(r.value.1)
  {
    var i := IndexOf(line, ':');
    if i == |line| then None
    else
      var key := Trim(line[..i]);
      TrimAvoids(line[..i], ':');
      Some((key, Trim(line[i + 1..])))
  }

  /** `line` sets the variable `k`. */
  predicate Defines(line: string, k: string) {
    Names(SplitField(line), k)
  }

  /** A parsed line that sets the variable `k`. */
  predicate Names(f: Option<(string, string)>, k: string) {
    f.Some? && f.value.0 == k
  }

  /** The parsed form of every line, in order. */
  function FieldsOf(lines: seq<string>): (fs: seq<Option<(string, string)>>)
    ensures |fs| == |lines|
  {
    if lines == [] then [] else FieldsOf(lines[..|lines| - 1]) + [SplitField(lines[|lines| - 1])]
  }

  lemma {:induction false} FieldsOfAt(lines: seq<string>, i: nat)
    requires i < |lines|
    ensures FieldsOf(lines)[i] == SplitField(lines[i])
  {
    if i < |lines| - 1 {
      FieldsOfAt(lines[..|lines| - 1], i);
    }
  }

  /** Fills a dictionary from parsed lines, later lines overwriting earlier ones. */
  function Collect(fs: seq<Option<(string, string)>>): map<string, string> {
    if fs == [] then map[]
    else
      var m := Collect(fs[..|fs| - 1]);
      match fs[|fs| - 1]
      case None => m
      case Some((k, v)) => m[k := v]
  }

  /** The dictionary built by the loop over `lines`. */
  function ParseLines(lines: seq<string>): map<string, string> {
    Collect(FieldsOf(lines))
  }

  /** What `read_ups` returns for a given subprocess result. */
  function ParseUps(returnCode: int, stdout: string): map<string, string> {
    if returnCode != 0 then map[] else ParseLines(SplitLines(stdout))
  }

  lemma {:induction false} CollectDomain(fs: seq<Option<(string, string)>>, k: string)
    ensures k in Collect(fs) <==> exists i :: 0 <= i < |fs| && Names(fs[i], k)
  {
    if fs != [] {
      var init := fs[..|fs| - 1];
      CollectDomain(init, k);
      if exists i :: 0 <= i < |init| && Names(init[i], k) {
        var i :| 0 <= i < |init| && Names(init[i], k);
        assert fs[i] == init[i];
      }
      if exists i :: 0 <= i < |fs| && Names(fs[i], k) {
        var i :| 0 <= i < |fs| && Names(fs[i], k);
        if i < |init| {
          assert init[i] == fs[i];
        }
      }
    }
  }

  lemma {:induction false} CollectLastWins(fs: seq<Option<(string, string)>>, i: nat)
    requires i < |fs| && fs[i].Some?
    requires forall j :: i < j < |fs| ==> !Names(fs[j], fs[i].value.0)
    ensures fs[i].value.0 in Collect(fs) && Collect(fs)[fs[i].value.0] == fs[i].value.1
  {
    var init := fs[..|fs| - 1];
    if i < |fs| - 1 {
      assert init[i] == fs[i];
      forall j | i < j < |init| ensures !Names(init[j], init[i].value.0) {
        assert init[j] == fs[j];
      }
      CollectLastWins(init, i);
      assert !Names(fs[|fs| - 1], fs[i].value.0);
    }
  }

  /** A key is in the result exactly when some colon-bearing line names it. */
  lemma ParseDomain(lines: seq<string>, k: string)
    ensures k in ParseLines(lines) <==> exists i :: 0 <= i < |lines| && Defines(lines[i], k)
  {
    var fs := FieldsOf(lines);
    CollectDomain(fs, k);
    forall i | 0 <= i < |lines| ensures fs[i] == SplitField(lines[i]) {
      FieldsOfAt(lines, i);
    }
  }

  /** The value stored for a key comes from the last line that names it. */
  lemma ParseLastWins(lines: seq<string>, i: nat)
    requires i < |lines| && SplitField(lines[i]).Some?
    requires forall j :: i < j < |lines| ==> !Defines(lines[j], SplitField(lines[i]).value.0)
    ensures SplitField(lines[i]).value.0 in ParseLines(lines)
    ensures ParseLines(lines)[SplitField(lines[i]).value.0] == SplitField(lines[i]).value.1
  {
    var fs := FieldsOf(lines);
    forall j | 0 <= j < |lines| ensures fs[j] == SplitField(lines[j]) {
      FieldsOfAt(lines, j);
    }
    CollectLastWins(fs, i);
  }

  /**
   * `read_ups` after the subprocess call: a non-zero exit code gives the empty
   * map; otherwise the lines of the output are scanned in order and every
   * line with a colon stores its stripped value under its stripped name.
   */
  method ReadUps(returnCode: int, stdout: string) returns (data: map<string, string>)
    ensures data == ParseUps(returnCode, stdout)
    ensures returnCode != 0 ==> data == map[]
  {
    if returnCode != 0 {
      return map[];
    }
    data := map[];
    var lines := SplitLines(stdout);
    for n := 0 to |lines|
      invariant data == ParseLines(lines[..n])
    {
      var line := lines[n];
      ParseLinesStep(lines, n);
      var i := IndexOf(line, ':');
      if i < |line| {
        SplitFieldAt(line, i);
        var key, val := line[..i], line[i + 1..];
        data := data[Trim(key) := Trim(val)];
      }
    }
    assert lines[..|lines|] == lines;
  }

  /** The dictionary after line `n` is the one before it, updated by that line. */
  lemma ParseLinesStep(lines: seq<string>, n: nat)
    requires n < |lines|
    ensures var f := SplitField(lines[n]);
      ParseLines(lines[..n + 1]) == if f.Some? then ParseLines(lines[..n])[f.value.0 := f.value.1] else ParseLines(lines[..n])
  {
    assert lines[..n + 1] == lines[..n] + [lines[n]];
    FieldsOfAppend(lines[..n], lines[n]);
    CollectAppend(FieldsOf(lines[..n]), SplitField(lines[n]));
  }

  lemma FieldsOfAppend(lines: seq<string>, line: string)
    ensures FieldsOf(lines + [line]) == FieldsOf(lines) + [SplitField(line)]
  {
    assert (lines + [line])[..|lines|] == lines;
  }

  /** One more parsed line updates the dictionary the way the loop body does. */
  lemma CollectAppend(fs: seq<Option<(string, string)>>, f: Option<(string, string)>)
    ensures Collect(fs + [f]) == if f.Some? then Collect(fs)[f.value.0 := f.value.1] else Collect(fs)
  {
    assert (fs + [f])[..|fs|] == fs;
  }

  /** The split of a line whose first colon is at `i`. */
  lemma SplitFieldAt(line: string, i: nat)
    requires i == IndexOf(line, ':') && i < |line|
    ensures SplitField(line) == Some((Trim(line[..i]), Trim(line[i + 1..])))
  {
  }

  /** Surrounding whitespace around the name and the value does not matter, and
      the value may itself contain colons. */
  lemma FieldRoundTrip(w1: string, key: string, w2: string, w3: string, value: string, w4: string)
    requires AllSpace(w1) && AllSpace(w2) && AllSpace(w3) && AllSpace(w4)
    requires Lacks(key, ':') && NoEdgeSpace(key) && NoEdgeSpace(value)
    ensures SplitField(w1 + key + w2 + ":" + w3 + value + w4) == Some((key, value))
  {
    var pre, post := w1 + key + w2, w3 + value + w4;
    assert w1 + key + w2 + ":" + w3 + value + w4 == pre + ":" + post;
    assert Lacks(pre, ':') by {
      SpaceLacksColon(w1);
      SpaceLacksColon(w2);
      LacksAppend(w1, key, ':');
      LacksAppend(w1 + key, w2, ':');
    }
    ColonSplit(pre, post);
    TrimOfPadded(w1, key, w2);
    TrimOfPadded(w3, value, w4);
  }

  /** A line whose first colon follows `pre` splits into the stripped sides. */
  lemma ColonSplit(pre: string, post: string)
    requires Lacks(pre, ':')
    ensures SplitField(pre + ":" + post) == Some((Trim(pre), Trim(post)))
  {
    var line := pre + ":" + post;
    assert line == pre + (":" + post);
    IndexOfAfter(pre, ':', ":" + post);
    assert line[..|pre|] == pre;
    assert line[|pre| + 1..] == post;
    SplitFieldAt(line, |pre|);
  }

  lemma SpaceLacksColon(w: string)
    requires AllSpace(w)
    ensures Lacks(w, ':')
  {
  }

  /** The `name: value` lines of a listing of variables. */
  function RenderLines(entries: seq<(string, string)>): (r: seq<string>)
    ensures |r| == |entries|
  {
    if entries == [] then []
    else RenderLines(entries[..|entries| - 1]) + [entries[|entries| - 1].0 + ": " + entries[|entries| - 1].1]
  }

  /** A listing as a dictionary, later entries overwriting earlier ones. */
  function ToMap(entries: seq<(string, string)>): map<string, string> {
    if entries == [] then map[]
    else ToMap(entries[..|entries| - 1])[entries[|entries| - 1].0 := entries[|entries| - 1].1]
  }

  /** A well-formed name (no colon, newline or surrounding whitespace). */
  predicate GoodName(k: string) {
    Lacks(k, ':') && Lacks(k, '\n') && NoEdgeSpace(k)
  }

  /** A well-formed value (no newline or surrounding whitespace); colons are allowed. */
  predicate GoodValue(v: string) {
    Lacks(v, '\n') && NoEdgeSpace(v)
  }

  /** A rendered `name: value` line parses back to its name and value. */
  lemma RenderedLineParses(k: string, v: string)
    requires GoodName(k) && NoEdgeSpace(v)
    ensures SplitField(k + ": " + v) == Some((k, v))
  {
    assert k + ": " + v == [] + k + [] + ":" + " " + v + [];
    FieldRoundTrip([], k, [], " ", v, []);
  }

  /** Every entry, as a parsed line. */
  function AsFields(entries: seq<(string, string)>): (fs: seq<Option<(string, string)>>)
    ensures |fs| == |entries|
    ensures forall i :: 0 <= i < |entries| ==> fs[i] == Some(entries[i])
  {
    if entries == [] then [] else AsFields(entries[..|entries| - 1]) + [Some(entries[|entries| - 1])]
  }

  lemma {:induction false} CollectAsFields(entries: seq<(string, string)>)
    ensures Collect(AsFields(entries)) == ToMap(entries)
  {
    if entries != [] {
      var fs := AsFields(entries);
      assert fs[..|fs| - 1] == AsFields(entries[..|entries| - 1]);
      CollectAsFields(entries[..|entries| - 1]);
    }
  }

  lemma ParseRenderLines(entries: seq<(string, string)>)
    requires forall i :: 0 <= i < |entries| ==> GoodName(entries[i].0) && NoEdgeSpace(entries[i].1)
    ensures ParseLines(RenderLines(entries)) == ToMap(entries)
  {
    var lines := RenderLines(entries);
    forall i | 0 <= i < |entries| ensures FieldsOf(lines)[i] == Some(entries[i]) {
      RenderedFieldAt(entries, i);
    }
    assert FieldsOf(lines) == AsFields(entries);
    CollectAsFields(entries);
  }

  /** The `i`th rendered line parses to the `i`th entry. */
  lemma RenderedFieldAt(entries: seq<(string, string)>, i: nat)
    requires i < |entries| && GoodName(entries[i].0) && NoEdgeSpace(entries[i].1)
    ensures FieldsOf(RenderLines(entries))[i] == Some(entries[i])
  {
    FieldsOfAt(RenderLines(entries), i);
    RenderLinesAt(entries, i);
    RenderedLineParses(entries[i].0, entries[i].1);
  }

  /**
   * Round trip: the output `upsc` prints for a listing of variables, with a
   * zero exit code, parses back to that listing as a dictionary.
   */
  lemma ParseRendered(entries: seq<(string, string)>)
    requires forall i :: 0 <= i < |entries| ==> GoodName(entries[i].0) && GoodValue(entries[i].1)
    ensures ParseUps(0, Terminated(RenderLines(entries))) == ToMap(entries)
  {
    var lines := RenderLines(entries);
    forall i | 0 <= i < |lines| ensures Lacks(lines[i], '\n') {
      RenderLinesAt(entries, i);
      RenderedLineIsOneLine(entries[i].0, entries[i].1);
    }
    SplitTerminated(lines);
    ParseRenderLines(entries);
  }

  lemma RenderedLineIsOneLine(k: string, v: string)
    requires Lacks(k, '\n') && Lacks(v, '\n')
    ensures Lacks(k + ": " + v, '\n')
  {
    var s := k + ": " + v;
    forall j | 0 <= j < |s| ensures s[j] != '\n' {
      if j < |k| { assert s[j] == k[j]; }
      else if j >= |k| + 2 { assert s[j] == v[j - |k| - 2]; }
    }
  }

  lemma {:induction false} RenderLinesAt(entries: seq<(string, string)>, i: nat)
    requires i < |entries|
    ensures RenderLines(entries)[i] == entries[i].0 + ": " + entries[i].1
  {
    if i < |entries| - 1 {
      RenderLinesAt(entries[..|entries| - 1], i);
    }
  }

  /** Any exit code other than zero yields the empty map, whatever was printed. */
  lemma FailedRunIsEmpty(returnCode: int, stdout: string)
    requires returnCode != 0
    ensures ParseUps(returnCode, stdout) == map[]
  {
  }
}
