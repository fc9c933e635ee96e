/**
 * In-memory stand-ins for the text handling both scripts do around their
 * files: Python's `str.strip()`, iterating over the lines of a file, and
 * joining rows with newlines as the solver's output writer does.
 */
module Text {

  /**
   * Which whitespace `strip()` removes: a byte string (`str`) removes the six
   * ASCII whitespace characters, a unicode string removes every character
   * Python 2.7's unicode database classes as whitespace.
   */
  datatype Whitespace = Ascii | Unicode

  /** The characters `strip()` removes by default from a string of kind `ws`. */
  predicate IsSpace(c: char, ws: Whitespace) {
    ('\t' <= c <= '\r') || c == ' ' ||
    (ws == Unicode &&
      (('\U{1C}' <= c <= '\U{1F}') || c == '\U{85}' || c == '\U{A0}' || c == '\U{1680}' ||
       c == '\U{180E}' || ('\U{2000}' <= c <= '\U{200A}') || c == '\U{2028}' || c == '\U{2029}' ||
       c == '\U{202F}' || c == '\U{205F}' || c == '\U{3000}'))
  }

  /** Drops leading whitespace. */
  function TrimStart(s: string, ws: Whitespace): (r: string)
    ensures |r| <= |s| && r == s[|s| - |r|..]
    ensures r == [] || !IsSpace(r[0], ws)
    ensures forall k :: 0 <= k < |s| - |r| ==> IsSpace(s[k], ws)
  {
    if |s| > 0 && IsSpace(s[0], ws) then TrimStart(s[1..], ws) else s
  }

  /** Drops trailing whitespace. */
  function TrimEnd(s: string, ws: Whitespace): (r: string)
    ensures |r| <= |s| && r == s[..|r|]
    ensures r == [] || !IsSpace(r[|r| - 1], ws)
    ensures forall k :: |r| <= k < |s| ==> IsSpace(s[k], ws)
  {
    if |s| > 0 && IsSpace(s[|s| - 1], ws) then TrimEnd(s[..|s| - 1], ws) else s
  }

  /**
   * Python's `line.strip()`: the middle of `s` left once the whitespace
   * before and after it is removed.
   */
  function Strip(s: string, ws: Whitespace): (r: string)
    ensures r == [] || (!IsSpace(r[0], ws) && !IsSpace(r[|r| - 1], ws))
    ensures exists i, j :: 0 <= i <= j <= |s| && r == s[i..j] &&
              (forall k :: 0 <= k < i ==> IsSpace(s[k], ws)) &&
              (forall k :: j <= k < |s| ==> IsSpace(s[k], ws))
  {
    StripSlice(s, ws);
    TrimEnd(TrimStart(s, ws), ws)
  }

  /** Trimming both ends leaves a slice of `s` that neither starts nor ends with whitespace and has only whitespace outside it. */
  lemma StripSlice(s: string, ws: Whitespace)
    ensures var r := TrimEnd(TrimStart(s, ws), ws);
            r == [] || (!IsSpace(r[0], ws) && !IsSpace(r[|r| - 1], ws))
    ensures var r := TrimEnd(TrimStart(s, ws), ws);
            exists i, j :: 0 <= i <= j <= |s| && r == s[i..j] &&
              (forall k :: 0 <= k < i ==> IsSpace(s[k], ws)) &&
              (forall k :: j <= k < |s| ==> IsSpace(s[k], ws))
  {
    var t := TrimStart(s, ws);
    var r := TrimEnd(t, ws);
    if r != [] {
      assert r[0] == t[0];
    }
    var i, j := StripBounds(s, ws);
  }

  /** Where the slice that trimming both ends leaves starts and ends. */
  lemma StripBounds(s: string, ws: Whitespace) returns (i: nat, j: nat)
    ensures i <= j <= |s| && TrimEnd(TrimStart(s, ws), ws) == s[i..j]
    ensures forall k :: 0 <= k < i ==> IsSpace(s[k], ws)
    ensures forall k :: j <= k < |s| ==> IsSpace(s[k], ws)
  {
    var t := TrimStart(s, ws);
    var r := TrimEnd(t, ws);
    i, j := |s| - |t|, |s| - |t| + |r|;
    assert r == s[i..j] by {
      assert t == s[i..] && r == t[..|r|];
    }
    TrailingSpace(s, t, |r|, ws);
  }

  /** Whitespace at the end of a suffix `t` of `s` is whitespace at the end of `s`. */
  lemma TrailingSpace(s: string, t: string, n: nat, ws: Whitespace)
    requires |t| <= |s| && t == s[|s| - |t|..] && n <= |t|
    requires forall k :: n <= k < |t| ==> IsSpace(t[k], ws)
    ensures forall k :: |s| - |t| + n <= k < |s| ==> IsSpace(s[k], ws)
  {
    forall k | |s| - |t| + n <= k < |s|
      ensures IsSpace(s[k], ws)
    {
      assert s[k] == t[k - (|s| - |t|)];
    }
  }

  /** A line whose only whitespace is one trailing newline strips to itself without the newline. */
  lemma StripLine(row: string, ws: Whitespace)
    requires forall c :: c in row ==> !IsSpace(c, ws)
    ensures Strip(row + "\n", ws) == row
    ensures Strip(row, ws) == row
  {
    if row == [] {
      assert TrimStart(row + "\n", ws) == [];
    } else {
      assert row[0] in row && row[|row| - 1] in row;
      assert (row + "\n")[0] == row[0];
      assert TrimStart(row + "\n", ws) == row + "\n";
      assert (row + "\n")[..|row|] == row;
      assert TrimEnd(row + "\n", ws) == TrimEnd(row, ws);
    }
  }

  /** The index of the first newline in `s`, or `|s|` when there is none. */
  function NewlineIndex(s: string): (i: nat)
    ensures i <= |s|
    ensures i < |s| ==> s[i] == '\n'
    ensures forall k :: 0 <= k < i ==> s[k] != '\n'
  {
    if s == [] then 0
    else if s[0] == '\n' then 0
    else 1 + NewlineIndex(s[1..])
  }

  /** The first newline of `head + "\n" + rest` is the one after `head` when `head` has none. */
  lemma NewlineAfter(head: string, rest: string)
    requires '\n' !in head
    ensures NewlineIndex(head + "\n" + rest) == |head|
  {
    var s := head + "\n" + rest;
    assert s[|head|] == '\n';
    forall k | 0 <= k < |head| ensures s[k] != '\n' {
      assert s[k] == head[k] && head[k] in head;
    }
  }

  /**
   * The lines that iterating over a file holding `s` yields: each line keeps
   * its newline, and a last line without one is yielded as it is.
   */
  function SplitLines(s: string): (r: seq<string>)
    decreases |s|
  {
    if s == [] then []
    else
      var i := NewlineIndex(s);
      if i < |s| then [s[..i + 1]] + SplitLines(s[i + 1..]) else [s]
  }

  /** The rows joined by newlines, with no newline after the last row. */
  function JoinLines(rows: seq<string>): (r: string) {
    if |rows| == 0 then []
    else if |rows| == 1 then rows[0]
    else rows[0] + "\n" + JoinLines(rows[1..])
  }

  /** Writing one more row after a newline extends the joined text at its end. */
  lemma {:induction false} JoinLinesSnoc(rows: seq<string>, row: string)
    requires |rows| > 0
    ensures JoinLines(rows + [row]) == JoinLines(rows) + "\n" + row
  {
    if |rows| > 1 {
      assert (rows + [row])[1..] == rows[1..] + [row];
      JoinLinesSnoc(rows[1..], row);
    }
  }

  /** What file iteration yields for row `i` of the joined text. */
  function LineOf(rows: seq<string>, i: nat): (r: string)
    requires i < |rows|
  {
    if i < |rows| - 1 then rows[i] + "\n" else rows[i]
  }

  /** A row without whitespace is what its line strips to. */
  lemma StripLineOf(rows: seq<string>, i: nat, ws: Whitespace)
    requires i < |rows|
    requires forall c :: c in rows[i] ==> !IsSpace(c, ws)
    ensures Strip(LineOf(rows, i), ws) == rows[i]
  {
    StripLine(rows[i], ws);
  }

  /**
   * Reading back joined rows: when no row holds a newline and none is empty,
   * line `i` of the file is row `i` followed by its newline (none after the
   * last row).
   */
  lemma {:induction false} SplitJoinLines(rows: seq<string>)
    requires forall r :: r in rows ==> |r| > 0 && '\n' !in r
    ensures |SplitLines(JoinLines(rows))| == |rows|
    ensures forall i :: 0 <= i < |rows| ==> SplitLines(JoinLines(rows))[i] == LineOf(rows, i)
  {
    if |rows| == 1 {
      assert rows[0] in rows;
      assert NewlineIndex(rows[0]) == |rows[0]|;
    } else if |rows| > 1 {
      var head, rest := rows[0], JoinLines(rows[1..]);
      var s := head + "\n" + rest;
      assert rows[0] in rows;
      NewlineAfter(head, rest);
      assert s[..|head| + 1] == head + "\n";
      assert s[|head| + 1..] == rest;
      assert forall r :: r in rows[1..] ==> r in rows;
      SplitJoinLines(rows[1..]);
      var lines, restLines := SplitLines(s), SplitLines(rest);
      assert JoinLines(rows) == s;
      assert lines == [head + "\n"] + restLines;
      forall i | 0 <= i < |rows|
        ensures lines[i] == LineOf(rows, i)
      {
        if i > 0 {
          assert lines[i] == restLines[i - 1];
          assert LineOf(rows[1..], i - 1) == LineOf(rows, i);
        }
      }
    }
  }
}
