/** Reading a mapping file: the text is iterated line by line and each line
    is split into whitespace-separated tokens, as Python's `str.split()` with
    no separator does. */
module Mapping {

  /** Python's `str.isspace` for one character: the separators that
      `str.split()` with no argument splits on. */
  predicate IsSpace(c: char)
  {
    c == ' ' || ('\t' <= c <= '\r') || ('\U{1C}' <= c <= '\U{1F}') ||
    c == '\U{85}' || c == '\U{A0}' || c == '\U{1680}' ||
    ('\U{2000}' <= c <= '\U{200A}') || c == '\U{2028}' || c == '\U{2029}' ||
    c == '\U{202F}' || c == '\U{205F}' || c == '\U{3000}'
  }

  predicate NoSpace(s: string)
  {
    forall i :: 0 <= i < |s| ==> !IsSpace(s[i])
  }

  predicate AllSpace(s: string)
  {
    forall i :: 0 <= i < |s| ==> IsSpace(s[i])
  }

  predicate NoNewline(s: string)
  {
    forall i :: 0 <= i < |s| ==> s[i] != '\n'
  }

  /** A token as `str.split()` produces it: non-empty, without whitespace. */
  predicate IsToken(t: string)
  {
    |t| > 0 && NoSpace(t)
  }

  // ---------------------------------------------------------------------
  // Tokens of one line
  // ---------------------------------------------------------------------

  /** Length of the longest whitespace-free prefix of s. */
  function WordLength(s: string): (n: nat)
    ensures n <= |s|
    ensures NoSpace(s[..n])
    ensures n < |s| ==> IsSpace(s[n])
  {
    if s == [] || IsSpace(s[0]) then 0
    else
      var m := WordLength(s[1..]);
      assert s[..m + 1] == [s[0]] + s[1..][..m];
      m + 1
  }

  /** `s.split()`: the maximal runs of non-whitespace characters, in order. */
  function Split(s: string): (ts: seq<string>)
    ensures forall i :: 0 <= i < |ts| ==> IsToken(ts[i])
    decreases |s|
  {
    if s == [] then []
    else if IsSpace(s[0]) then Split(s[1..])
    else
      var n := WordLength(s);
      [s[..n]] + Split(s[n..])
  }

  /** Tokens joined by single spaces: the canonical way to write a mapping row. */
  function Join(ts: seq<string>): string
  {
    if ts == [] then ""
    else if |ts| == 1 then ts[0]
    else ts[0] + " " + Join(ts[1..])
  }

  lemma {:induction false} WordLengthOfToken(t: string, rest: string)
    requires NoSpace(t)
    requires rest == [] || IsSpace(rest[0])
    ensures WordLength(t + rest) == |t|
    decreases |t|
  {
    if t != [] {
      assert (t + rest)[1..] == t[1..] + rest;
      WordLengthOfToken(t[1..], rest);
    }
  }

  /** Whitespace alone yields no tokens. */
  lemma {:induction false} SplitAllSpace(w: string)
    requires AllSpace(w)
    ensures Split(w) == []
    decreases |w|
  {
    if w != [] {
      SplitAllSpace(w[1..]);
    }
  }

  /** Splitting a space-joined row (with any trailing whitespace, such as the
      line's newline) gives back exactly the tokens, in order. */
  lemma {:induction false} SplitJoin(ts: seq<string>, w: string)
    requires forall i :: 0 <= i < |ts| ==> IsToken(ts[i])
    requires AllSpace(w)
    ensures Split(Join(ts) + w) == ts
    decreases |ts|
  {
    if ts == [] {
      assert Join(ts) + w == w;
      SplitAllSpace(w);
    } else {
      var t := ts[0];
      var rest := if |ts| == 1 then w else " " + (Join(ts[1..]) + w);
      assert Join(ts) + w == t + rest;
      SplitToken(t, rest);
      if |ts| == 1 {
        SplitAllSpace(w);
      } else {
        SplitSkipSpace(" ", Join(ts[1..]) + w);
        SplitJoin(ts[1..], w);
      }
    }
  }

  lemma {:induction false} JoinNoNewline(ts: seq<string>)
    requires forall i :: 0 <= i < |ts| ==> IsToken(ts[i])
    ensures NoNewline(Join(ts))
    decreases |ts|
  {
    if |ts| > 1 {
      JoinNoNewline(ts[1..]);
    }
  }

  /** Whitespace runs and tokens alternating, starting and ending with a
      (possibly empty) run: ws[0] + ts[0] + ws[1] + ... + ts[n-1] + ws[n]. */
  function Interleave(ws: seq<string>, ts: seq<string>): string
    requires |ws| == |ts| + 1
    decreases |ts|
  {
    if ts == [] then ws[0] else ws[0] + ts[0] + Interleave(ws[1..], ts[1..])
  }

  /** Separating runs: all whitespace, and every inner one non-empty so that
      neighbouring tokens stay apart. */
  predicate Gapped(ws: seq<string>)
  {
    |ws| >= 1 &&
    (forall i :: 0 <= i < |ws| ==> AllSpace(ws[i])) &&
    (forall i :: 0 < i < |ws| - 1 ==> |ws[i]| > 0)
  }

  /** Leading whitespace is skipped. */
  lemma {:induction false} SplitSkipSpace(w: string, rest: string)
    requires AllSpace(w)
    ensures Split(w + rest) == Split(rest)
    decreases |w|
  {
    if w == [] {
      assert w + rest == rest;
    } else {
      assert (w + rest)[0] == w[0] && (w + rest)[1..] == w[1..] + rest;
      SplitSkipSpace(w[1..], rest);
    }
  }

  /** A token followed by whitespace or the end of the line is the first token. */
  lemma {:induction false} SplitToken(t: string, rest: string)
    requires IsToken(t)
    requires rest == [] || IsSpace(rest[0])
    ensures Split(t + rest) == [t] + Split(rest)
  {
    var s := t + rest;
    WordLengthOfToken(t, rest);
    assert s[0] == t[0];
    assert s[..|t|] == t;
    assert s[|t|..] == rest;
  }

  /** Dropping the first run and token leaves separating runs, and what
      follows the first token starts with a space or is empty. */
  lemma {:induction false} GappedTail(ws: seq<string>, ts: seq<string>)
    requires |ws| == |ts| + 1 && Gapped(ws) && ts != []
    ensures Gapped(ws[1..])
    ensures var rest := Interleave(ws[1..], ts[1..]); rest == [] || IsSpace(rest[0])
  {
    forall i | 0 < i < |ws[1..]| - 1 ensures |ws[1..][i]| > 0 {
      assert ws[1..][i] == ws[i + 1];
    }
    var rest := Interleave(ws[1..], ts[1..]);
    assert AllSpace(ws[1]);
    if |ts| > 1 {
      assert |ws[1]| > 0;
      assert rest == ws[1] + ts[1] + Interleave(ws[2..], ts[2..]);
    }
  }

  /** `s.split()` gives back the tokens of any line made of tokens separated
      by whitespace runs of any length, with any leading and trailing
      whitespace. */
  lemma {:induction false} SplitInterleave(ws: seq<string>, ts: seq<string>)
    requires |ws| == |ts| + 1 && Gapped(ws)
    requires forall i :: 0 <= i < |ts| ==> IsToken(ts[i])
    ensures Split(Interleave(ws, ts)) == ts
    decreases |ts|
  {
    if ts == [] {
      SplitAllSpace(ws[0]);
    } else {
      var rest := Interleave(ws[1..], ts[1..]);
      assert AllSpace(ws[0]);
      assert Interleave(ws, ts) == ws[0] + (ts[0] + rest);
      SplitSkipSpace(ws[0], ts[0] + rest);
      GappedTail(ws, ts);
      SplitToken(ts[0], rest);
      SplitInterleave(ws[1..], ts[1..]);
    }
  }

  /** The whitespace runs of a line around its tokens. */
  function Gaps(s: string): (ws: seq<string>)
    ensures |ws| == |Split(s)| + 1
    decreases |s|
  {
    if s == [] then [""]
    else if IsSpace(s[0]) then
      var g := Gaps(s[1..]);
      [[s[0]] + g[0]] + g[1..]
    else
      [""] + Gaps(s[WordLength(s)..])
  }

  /** What GapsInterleave states about one line. */
  predicate GapsOk(s: string)
  {
    Gapped(Gaps(s)) &&
    (s != [] && IsSpace(s[0]) ==> |Gaps(s)[0]| > 0) &&
    Interleave(Gaps(s), Split(s)) == s
  }

  /** Every line is its tokens interleaved with its whitespace runs, so with
      SplitInterleave the tokens of `s.split()` are the only ones whose
      interleaving gives the line. */
  lemma {:induction false} GapsInterleave(s: string)
    ensures Gapped(Gaps(s))
    ensures s != [] && IsSpace(s[0]) ==> |Gaps(s)[0]| > 0
    ensures Interleave(Gaps(s), Split(s)) == s
    decreases |s|
  {
    if s == [] {
    } else if IsSpace(s[0]) {
      GapsInterleave(s[1..]);
      GapsSpaceStep(s);
    } else {
      var n := WordLength(s);
      var t, r := s[..n], s[n..];
      GapsInterleave(r);
      assert s == t + r;
      GapsToken(t, r);
    }
  }

  /** Text put before the first run is put before the whole line. */
  lemma {:induction false} InterleavePrefix(c: string, ws: seq<string>, ts: seq<string>)
    requires |ws| == |ts| + 1
    ensures Interleave([c + ws[0]] + ws[1..], ts) == c + Interleave(ws, ts)
  {
    var vs := [c + ws[0]] + ws[1..];
    if ts != [] {
      assert vs[1..] == ws[1..];
      var rest := Interleave(ws[1..], ts[1..]);
      calc {
        Interleave(vs, ts);
        (c + ws[0]) + ts[0] + rest;
        c + (ws[0] + ts[0] + rest);
      }
    }
  }

  lemma {:induction false} GapsSpaceStep(s: string)
    requires s != [] && IsSpace(s[0]) && GapsOk(s[1..])
    ensures GapsOk(s)
  {
    var g := Gaps(s[1..]);
    var ws := Gaps(s);
    assert ws == [[s[0]] + g[0]] + g[1..];
    assert Split(s) == Split(s[1..]);
    InterleavePrefix([s[0]], g, Split(s));
    assert s == [s[0]] + s[1..];
    assert AllSpace(ws[0]);
    forall i | 0 < i < |ws| ensures AllSpace(ws[i]) && (i < |ws| - 1 ==> |ws[i]| > 0) {
      assert ws[i] == g[i];
    }
  }

  /** A token with no run before it is put before the whole line. */
  lemma {:induction false} InterleaveToken(t: string, ws: seq<string>, ts: seq<string>)
    requires |ws| == |ts| + 1
    ensures Interleave([""] + ws, [t] + ts) == t + Interleave(ws, ts)
  {
    assert ([""] + ws)[1..] == ws && ([t] + ts)[1..] == ts;
  }

  lemma {:induction false} GapsToken(t: string, r: string)
    requires IsToken(t) && (r == [] || IsSpace(r[0]))
    requires GapsOk(r)
    ensures GapsOk(t + r)
  {
    var g := Gaps(r);
    WordLengthOfToken(t, r);
    assert (t + r)[..|t|] == t && (t + r)[|t|..] == r;
    assert Gaps(t + r) == [""] + g;
    SplitToken(t, r);
    InterleaveToken(t, g, Split(r));
    GappedCons(g);
  }

  /** An empty run put before the runs of a line that starts with a space,
      or has no token, keeps them separating. */
  lemma {:induction false} GappedCons(g: seq<string>)
    requires Gapped(g) && (|g| > 1 ==> |g[0]| > 0)
    ensures Gapped([""] + g)
  {
    var ws := [""] + g;
    assert AllSpace(ws[0]);
    forall i | 0 < i < |ws| ensures AllSpace(ws[i]) && (i < |ws| - 1 ==> |ws[i]| > 0) {
      assert ws[i] == g[i - 1];
    }
  }

  // ---------------------------------------------------------------------
  // Lines of a text
  // ---------------------------------------------------------------------

  /** Length of the first line of s, its newline included. */
  function LineLength(s: string): (n: nat)
    ensures n <= |s|
    ensures s != [] ==> n > 0
    ensures forall i :: 0 <= i < n - 1 ==> s[i] != '\n'
    ensures n < |s| ==> s[n - 1] == '\n'
  {
    if s == [] then 0
    else if s[0] == '\n' then 1
    else 1 + LineLength(s[1..])
  }

  /** The lines that iterating over a text file yields: each non-empty, with
      a newline at most as its last character. */
  function Lines(text: string): (ls: seq<string>)
    ensures forall i :: 0 <= i < |ls| ==> |ls[i]| > 0 && NoNewline(ls[i][..|ls[i]| - 1])
    decreases |text|
  {
    if text == [] then []
    else
      var n := LineLength(text);
      assert NoNewline(text[..n][..n - 1]);
      [text[..n]] + Lines(text[n..])
  }

  function Concat(ls: seq<string>): string
  {
    if ls == [] then "" else ls[0] + Concat(ls[1..])
  }

  /** Together the lines are the text again. */
  lemma {:induction false} LinesConcat(text: string)
    ensures Concat(Lines(text)) == text
    decreases |text|
  {
    if text != [] {
      var n := LineLength(text);
      assert text == text[..n] + text[n..];
      LinesConcat(text[n..]);
      assert Lines(text)[1..] == Lines(text[n..]);
    }
  }

  /** Every line but the last ends with its newline. */
  lemma {:induction false} LinesEndInNewline(text: string)
    ensures forall i :: 0 <= i < |Lines(text)| - 1 ==> Lines(text)[i][|Lines(text)[i]| - 1] == '\n'
    decreases |text|
  {
    if text != [] {
      var n := LineLength(text);
      var ls := Lines(text);
      LinesEndInNewline(text[n..]);
      forall i | 0 <= i < |ls| - 1 ensures ls[i][|ls[i]| - 1] == '\n' {
        if i > 0 {
          assert ls[i] == Lines(text[n..])[i - 1];
        } else {
          assert ls[0] == text[..n] && Lines(text[n..]) != [];
        }
      }
    }
  }

  lemma {:induction false} LineLengthOfLine(line: string, rest: string)
    requires NoNewline(line)
    ensures LineLength(line + "\n" + rest) == |line| + 1
    decreases |line|
  {
    if line != [] {
      assert (line + "\n" + rest)[1..] == line[1..] + "\n" + rest;
      LineLengthOfLine(line[1..], rest);
    }
  }

  // ---------------------------------------------------------------------
  // cast_mapping
  // ---------------------------------------------------------------------

  /** `cast_mapping`: one row of tokens per line of the mapping file. */
  function CastMapping(text: string): (rows: seq<seq<string>>)
    ensures |rows| == |Lines(text)|
    ensures forall h :: 0 <= h < |rows| ==> rows[h] == Split(Lines(text)[h])
  {
    var ls := Lines(text);
    seq(|ls|, h requires 0 <= h < |ls| => Split(ls[h]))
  }

  /** The canonical mapping file of a grid of tokens: every row joined by
      single spaces and terminated by a newline. */
  function MappingText(grid: seq<seq<string>>): string
  {
    if grid == [] then "" else Join(grid[0]) + "\n" + MappingText(grid[1..])
  }

  predicate TokenGrid(grid: seq<seq<string>>)
  {
    forall h, w :: 0 <= h < |grid| && 0 <= w < |grid[h]| ==> IsToken(grid[h][w])
  }

  /** A token grid's first row holds tokens, and its other rows form a
      token grid. */
  lemma {:induction false} TokenGridRows(grid: seq<seq<string>>)
    requires TokenGrid(grid) && grid != []
    ensures forall i :: 0 <= i < |grid[0]| ==> IsToken(grid[0][i])
    ensures TokenGrid(grid[1..])
  {
    forall h, w | 0 <= h < |grid[1..]| && 0 <= w < |grid[1..][h]|
      ensures IsToken(grid[1..][h][w])
    {
      assert grid[1..][h] == grid[h + 1];
    }
  }

  /** A mapping file's first line is its first row's tokens joined, with the
      newline; the other lines are those of the remaining rows. */
  lemma {:induction false} MappingTextLines(grid: seq<seq<string>>)
    requires TokenGrid(grid) && grid != []
    ensures Lines(MappingText(grid)) == [Join(grid[0]) + "\n"] + Lines(MappingText(grid[1..]))
  {
    var first, rest := Join(grid[0]), MappingText(grid[1..]);
    var text := MappingText(grid);
    assert text == first + "\n" + rest;
    TokenGridRows(grid);
    JoinNoNewline(grid[0]);
    LineLengthOfLine(first, rest);
    assert text[..|first| + 1] == first + "\n";
    assert text[|first| + 1..] == rest;
  }

  /** When a text's lines are one line followed by the lines of rest, its
      rows are that line's tokens followed by the rows of rest. */
  lemma {:induction false} CastMappingCons(text: string, line: string, rest: string)
    requires Lines(text) == [line] + Lines(rest)
    ensures CastMapping(text) == [Split(line)] + CastMapping(rest)
  {
    var a, b := CastMapping(text), [Split(line)] + CastMapping(rest);
    assert |a| == |b|;
    forall h | 0 <= h < |a| ensures a[h] == b[h] {
      if h > 0 {
        assert Lines(text)[h] == Lines(rest)[h - 1];
      }
    }
  }

  /** `cast_mapping` reads back the grid of a mapping file: one row per line,
      in order, each row that line's tokens, in order. */
  lemma {:induction false} CastMappingRoundTrip(grid: seq<seq<string>>)
    requires TokenGrid(grid)
    ensures CastMapping(MappingText(grid)) == grid
    decreases |grid|
  {
    if grid != [] {
      var first := Join(grid[0]);
      TokenGridRows(grid);
      MappingTextLines(grid);
      CastMappingCons(MappingText(grid), first + "\n", MappingText(grid[1..]));
      CastMappingRoundTrip(grid[1..]);
      assert AllSpace("\n");
      SplitJoin(grid[0], "\n");
      assert grid == [grid[0]] + grid[1..];
    }
  }
}
