/**
 * The string operations the bridge relies on: `str.strip`, `str.lower`,
 * `str.replace` on one character, `str.splitlines`, and the search for the
 * first `:` behind `':' in line` and `split(":", 1)`,
 * restricted to ASCII, space/tab whitespace and '\n' line ends.
 */
module Text {

  /** The characters `strip` removes in this model. */
  predicate IsSpace(c: char) {
    c == ' ' || c == '\t'
  }

  predicate AllSpace(s: string) {
    forall i :: 0 <= i < |s| ==> IsSpace(s[i])
  }

  /** No character of `s` is `c`. */
  predicate Lacks(s: string, c: char) {
    forall i :: 0 <= i < |s| ==> s[i] != c
  }

  lemma LacksAppend(a: string, b: string, c: char)
    requires Lacks(a, c) && Lacks(b, c)
    ensures Lacks(a + b, c)
  {
    forall i | 0 <= i < |a + b| ensures (a + b)[i] != c {
      if i >= |a| { assert (a + b)[i] == b[i - |a|]; }
    }
  }

  /** Neither the first nor the last character is whitespace. */
  predicate NoEdgeSpace(s: string) {
    s == [] || (!IsSpace(s[0]) && !IsSpace(s[|s| - 1]))
  }

  /** Drops the leading whitespace: the result is the suffix of `s` left after it. */
  function TrimLeft(s: string): (r: string)
    ensures |r| <= |s| && r == s[|s| - |r|..]
    ensures AllSpace(s[..|s| - |r|])
    ensures r == [] || !IsSpace(r[0])
  {
    if s != [] && IsSpace(s[0]) then TrimLeft(s[1..]) else s
  }

  /** Drops the trailing whitespace: the result is the prefix of `s` left before it. */
  function TrimRight(s: string): (r: string)
    ensures |r| <= |s| && r == s[..|r|]
    ensures AllSpace(s[|r|..])
    ensures r == [] || !IsSpace(r[|r| - 1])
  {
    if s != [] && IsSpace(s[|s| - 1]) then TrimRight(s[..|s| - 1]) else s
  }

  /** The number of leading whitespace characters of `s`. */
  function Lead(s: string): (n: nat)
    ensures n <= |s|
  {
    |s| - |TrimLeft(s)|
  }

  /** `s.strip()`: the text between the leading and the trailing whitespace. */
  function Trim(s: string): (r: string)
    ensures NoEdgeSpace(r)
  {
    TrimRight(TrimLeft(s))
  }

  /** What `Trim` keeps is a slice of `s`, and what it drops on either side is whitespace. */
  lemma TrimSlice(s: string)
    ensures Lead(s) + |Trim(s)| <= |s| && Trim(s) == s[Lead(s)..Lead(s) + |Trim(s)|]
    ensures AllSpace(s[..Lead(s)]) && AllSpace(s[Lead(s) + |Trim(s)|..])
  {
    var t := TrimLeft(s);
    var r := TrimRight(t);
    var n := |s| - |t|;
    assert Trim(s) == r && Lead(s) == n;
    SliceOfSuffix(s, n, |r|);
  }

  lemma SliceOfSuffix(s: string, n: nat, m: nat)
    requires n + m <= |s|
    ensures s[n..][..m] == s[n..n + m] && s[n..][m..] == s[n + m..]
  {
  }

  /** `strip` only removes characters, so it cannot introduce one. */
  lemma TrimAvoids(s: string, c: char)
    requires Lacks(s, c)
    ensures Lacks(Trim(s), c)
  {
    var r := Trim(s);
    TrimSlice(s);
    forall k | 0 <= k < |r| ensures r[k] != c {
      assert r[k] == s[Lead(s) + k];
    }
  }

  lemma {:induction false} TrimLeftOfPadded(w: string, t: string)
    requires AllSpace(w) && (t == [] || !IsSpace(t[0]))
    ensures TrimLeft(w + t) == t
    decreases |w|
  {
    if w != [] {
      assert (w + t)[1..] == w[1..] + t;
      TrimLeftOfPadded(w[1..], t);
    } else {
      assert w + t == t;
    }
  }

  lemma {:induction false} TrimRightOfPadded(t: string, w: string)
    requires AllSpace(w) && (t == [] || !IsSpace(t[|t| - 1]))
    ensures TrimRight(t + w) == t
    decreases |w|
  {
    if w != [] {
      assert (t + w)[..|t + w| - 1] == t + w[..|w| - 1];
      TrimRightOfPadded(t, w[..|w| - 1]);
    } else {
      assert t + w == t;
    }
  }

  /** Surrounding whitespace is exactly what `Trim` removes. */
  lemma TrimOfPadded(w1: string, t: string, w2: string)
    requires AllSpace(w1) && AllSpace(w2) && NoEdgeSpace(t)
    ensures Trim(w1 + t + w2) == t
  {
    if t == [] {
      assert w1 + t + w2 == w1 + w2;
      assert AllSpace(w1 + w2);
      AllSpaceTrim(w1 + w2);
    } else {
      assert w1 + t + w2 == w1 + (t + w2);
      TrimLeftOfPadded(w1, t + w2);
      TrimRightOfPadded(t, w2);
    }
  }

  lemma AllSpaceTrim(s: string)
    requires AllSpace(s)
    ensures Trim(s) == []
  {
  }

  /** `strip` is idempotent. */
  lemma TrimIdempotent(s: string)
    ensures Trim(Trim(s)) == Trim(s)
  {
    assert Trim(s) == [] + Trim(s) + [];
    TrimOfPadded([], Trim(s), []);
  }

  /** The index of the first `c` in `s`, or `|s|` when there is none. */
  function IndexOf(s: string, c: char): (r: nat)
    ensures r <= |s|
    ensures forall i :: 0 <= i < r ==> s[i] != c
    ensures r < |s| ==> s[r] == c
  {
    if s == [] then 0
    else if s[0] == c then 0
    else 1 + IndexOf(s[1..], c)
  }

  /** ASCII `lower` on one character. */
  function LowerChar(c: char): (r: char)
    ensures 'A' <= c <= 'Z' ==> r as int == c as int + 32
    ensures !('A' <= c <= 'Z') ==> r == c
    ensures !('A' <= r <= 'Z')
  {
    if 'A' <= c <= 'Z' then (c as int + 32) as char else c
  }

  /** `s.lower()`, ASCII only: each character lowered in place. */
  function Lower(s: string): (r: string)
    ensures |r| == |s|
    ensures forall i :: 0 <= i < |s| ==> r[i] == LowerChar(s[i])
  {
    if s == [] then [] else [LowerChar(s[0])] + Lower(s[1..])
  }

  /** `s.replace(a, b)` for single characters: every `a` becomes `b`, nothing else moves. */
  function Replace(s: string, a: char, b: char): (r: string)
    ensures |r| == |s|
    ensures forall i :: 0 <= i < |s| ==> r[i] == (if s[i] == a then b else s[i])
  {
    if s == [] then [] else [if s[0] == a then b else s[0]] + Replace(s[1..], a, b)
  }

  /**
   * `s.splitlines()` for '\n' line ends: the pieces between newlines, where a
   * final newline does not start another (empty) line.
   */
  function SplitLines(s: string): (r: seq<string>)
    ensures forall i :: 0 <= i < |r| ==> Lacks(r[i], '\n')
    ensures s == [] <==> r == []
    decreases |s|
  {
    if s == [] then []
    else
      var i := IndexOf(s, '\n');
      if i == |s| then [s] else [s[..i]] + SplitLines(s[i + 1..])
  }

  /** Each line followed by a newline: the text a line-oriented tool prints. */
  function Terminated(lines: seq<string>): string {
    if lines == [] then [] else lines[0] + "\n" + Terminated(lines[1..])
  }

  /** Splitting newline-terminated lines gives the lines back. */
  lemma {:induction false} SplitTerminated(lines: seq<string>)
    requires forall i :: 0 <= i < |lines| ==> Lacks(lines[i], '\n')
    ensures SplitLines(Terminated(lines)) == lines
  {
    if lines != [] {
      var s := Terminated(lines);
      var rest := Terminated(lines[1..]);
      assert s == lines[0] + ("\n" + rest);
      IndexOfAfter(lines[0], '\n', "\n" + rest);
      assert s[..|lines[0]|] == lines[0];
      assert s[|lines[0]| + 1..] == rest;
      SplitTerminated(lines[1..]);
    }
  }

  lemma IndexOfAfter(p: string, c: char, q: string)
    requires Lacks(p, c) && q != [] && q[0] == c
    ensures IndexOf(p + q, c) == |p|
  {
    var s := p + q;
    assert s[|p|] == c;
  }

  /** Re-terminating the split lines restores the text, up to a final newline. */
  lemma {:induction false} TerminatedSplit(s: string)
    ensures Terminated(SplitLines(s)) == if s == [] || s[|s| - 1] == '\n' then s else s + "\n"
    decreases |s|
  {
    if s != [] {
      var i := IndexOf(s, '\n');
      if i == |s| {
        TerminatedOneLine(s);
      } else {
        var t := s[i + 1..];
        TerminatedSplitCons(s, i);
        TerminatedSplit(t);
        ReterminateCons(s, i, Terminated(SplitLines(t)));
      }
    }
  }

  lemma TerminatedOneLine(s: string)
    requires s != [] && Lacks(s, '\n')
    ensures Terminated(SplitLines(s)) == s + "\n" && s[|s| - 1] != '\n'
  {
    assert SplitLines(s) == [s];
    assert Terminated([s]) == s + "\n" + Terminated([]);
  }

  lemma TerminatedSplitCons(s: string, i: nat)
    requires i == IndexOf(s, '\n') && i < |s|
    ensures Terminated(SplitLines(s)) == s[..i] + "\n" + Terminated(SplitLines(s[i + 1..]))
  {
    SplitLinesCons(s, i);
    TerminatedCons(s[..i], SplitLines(s[i + 1..]));
  }

  lemma SplitLinesCons(s: string, i: nat)
    requires i == IndexOf(s, '\n') && i < |s|
    ensures SplitLines(s) == [s[..i]] + SplitLines(s[i + 1..])
  {
  }

  lemma TerminatedCons(line: string, lines: seq<string>)
    ensures Terminated([line] + lines) == line + "\n" + Terminated(lines)
  {
    assert ([line] + lines)[1..] == lines;
  }

  lemma ReterminateCons(s: string, i: nat, x: string)
    requires i < |s| && s[i] == '\n'
    requires var t := s[i + 1..]; x == if t == [] || t[|t| - 1] == '\n' then t else t + "\n"
    ensures s[..i] + "\n" + x == if s[|s| - 1] == '\n' then s else s + "\n"
  {
    var t := s[i + 1..];
    assert s == s[..i] + "\n" + t;
    if t != [] {
      assert s[|s| - 1] == t[|t| - 1];
      if t[|t| - 1] != '\n' {
        assert s + "\n" == s[..i] + "\n" + (t + "\n");
      }
    }
  }
}
