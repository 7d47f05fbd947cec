/**
 * The string routines the refinement steps apply to model replies:
 * `str.split(sep)`, `str.strip()`, `sep.join(...)`, `str.startswith(...)`
 * and the list comprehensions that turn a reply into a list of lines
 * (backend/agents/rave_agent.py, gap_analyzer and query_generator).
 */
module Text {

  const NEWLINE: char := '\n'

  /** The characters Python's `str.isspace` accepts, which `str.strip()` removes. */
  predicate IsSpace(c: char) {
    || ('\U{9}' <= c <= '\U{D}')
    || ('\U{1C}' <= c <= '\U{20}')
    || c == '\U{85}' || c == '\U{A0}' || c == '\U{1680}'
    || ('\U{2000}' <= c <= '\U{200A}')
    || c == '\U{2028}' || c == '\U{2029}' || c == '\U{202F}' || c == '\U{205F}' || c == '\U{3000}'
  }

  // ---------------------------------------------------------------------------
  // split and join
  // ---------------------------------------------------------------------------

  /** `s.split(sep)` for a one-character separator: the pieces between separators, empty ones included. */
  function Split(s: string, sep: char): (pieces: seq<string>)
    ensures |pieces| >= 1
    ensures forall i :: 0 <= i < |pieces| ==> sep !in pieces[i]
    decreases |s|
  {
    if s == [] then [[]]
    else
      var rest := Split(s[1..], sep);
      if s[0] == sep then [[]] + rest
      else [[s[0]] + rest[0]] + rest[1..]
  }

  /** `sep.join(parts)`. */
  function Join(parts: seq<string>, sep: char): string
    decreases |parts|
  {
    if parts == [] then []
    else if |parts| == 1 then parts[0]
    else parts[0] + [sep] + Join(parts[1..], sep)
  }

  /** Joining the pieces of a split gives back the original string. */
  lemma {:induction false} JoinSplit(s: string, sep: char)
    ensures Join(Split(s, sep), sep) == s
    decreases |s|
  {
    if s != [] {
      var rest := Split(s[1..], sep);
      JoinSplit(s[1..], sep);
      if s[0] == sep {
        assert Split(s, sep) == [[]] + rest;
        assert ([[]] + rest)[1..] == rest;
      } else {
        var pieces := Split(s, sep);
        assert pieces == [[s[0]] + rest[0]] + rest[1..];
        if |rest| == 1 {
          assert Join(pieces, sep) == [s[0]] + rest[0];
        } else {
          assert pieces[1..] == rest[1..];
          assert Join(rest, sep) == rest[0] + [sep] + Join(rest[1..], sep);
          assert Join(pieces, sep) == ([s[0]] + rest[0]) + [sep] + Join(rest[1..], sep);
        }
      }
    }
  }

  /** Splitting a string that begins with a separator-free run `a` puts `a` in front of the first piece. */
  lemma {:induction false} SplitPrefix(a: string, t: string, sep: char)
    requires sep !in a
    ensures Split(a + t, sep) == [a + Split(t, sep)[0]] + Split(t, sep)[1..]
    decreases |a|
  {
    if a != [] {
      var p := Split(t, sep);
      assert (a + t)[1..] == a[1..] + t;
      SplitPrefix(a[1..], t, sep);
      var rest := Split(a[1..] + t, sep);
      assert rest == [a[1..] + p[0]] + p[1..];
      assert (a + t)[0] == a[0] != sep;
      assert Split(a + t, sep) == [[a[0]] + rest[0]] + rest[1..];
      assert [a[0]] + (a[1..] + p[0]) == a + p[0];
      assert rest[1..] == p[1..];
    } else {
      assert a + t == t;
      assert a + Split(t, sep)[0] == Split(t, sep)[0];
      assert Split(t, sep) == [Split(t, sep)[0]] + Split(t, sep)[1..];
    }
  }

  /** Splitting a join of separator-free parts gives back the parts. */
  lemma {:induction false} SplitJoin(parts: seq<string>, sep: char)
    requires |parts| >= 1
    requires forall i :: 0 <= i < |parts| ==> sep !in parts[i]
    ensures Split(Join(parts, sep), sep) == parts
    decreases |parts|
  {
    if |parts| == 1 {
      SplitPrefix(parts[0], [], sep);
      assert parts[0] + [] == parts[0];
      assert Split([], sep) == [[]];
    } else {
      var tail := Join(parts[1..], sep);
      SplitJoin(parts[1..], sep);
      assert ([sep] + tail)[1..] == tail;
      assert Split([sep] + tail, sep) == [[]] + Split(tail, sep);
      SplitPrefix(parts[0], [sep] + tail, sep);
      var q := Split([sep] + tail, sep);
      assert q[0] == [] && q[1..] == parts[1..];
      assert parts[0] + q[0] == parts[0];
      assert Join(parts, sep) == parts[0] + [sep] + tail == parts[0] + ([sep] + tail);
      assert parts == [parts[0]] + parts[1..];
    }
  }

  // ---------------------------------------------------------------------------
  // strip
  // ---------------------------------------------------------------------------

  /** `s.lstrip()`: the suffix of `s` left after dropping leading whitespace. */
  function StripLeft(s: string): string
    decreases |s|
  {
    if s != [] && IsSpace(s[0]) then StripLeft(s[1..]) else s
  }

  /** `lstrip()` drops a run of leading whitespace and stops at the first other character. */
  lemma {:induction false} StripLeftShape(s: string)
    ensures |StripLeft(s)| <= |s| && StripLeft(s) == s[|s| - |StripLeft(s)|..]
    ensures forall k :: 0 <= k < |s| - |StripLeft(s)| ==> IsSpace(s[k])
    ensures StripLeft(s) == [] || !IsSpace(StripLeft(s)[0])
    decreases |s|
  {
    if s != [] && IsSpace(s[0]) {
      StripLeftShape(s[1..]);
    }
  }

  /** `s.rstrip()`: the prefix of `s` left after dropping trailing whitespace. */
  function StripRight(s: string): string
    decreases |s|
  {
    if s != [] && IsSpace(s[|s| - 1]) then StripRight(s[..|s| - 1]) else s
  }

  /** `rstrip()` drops a run of trailing whitespace and stops at the last other character. */
  lemma {:induction false} StripRightShape(s: string)
    ensures |StripRight(s)| <= |s| && StripRight(s) == s[..|StripRight(s)|]
    ensures forall k :: |StripRight(s)| <= k < |s| ==> IsSpace(s[k])
    ensures StripRight(s) == [] || !IsSpace(StripRight(s)[|StripRight(s)| - 1])
    decreases |s|
  {
    if s != [] && IsSpace(s[|s| - 1]) {
      StripRightShape(s[..|s| - 1]);
    }
  }

  /** Neither end of `s` is whitespace. */
  predicate IsStripped(s: string) {
    s == [] || (!IsSpace(s[0]) && !IsSpace(s[|s| - 1]))
  }

  /** `s.strip()`: both `lstrip` and `rstrip`. */
  function Strip(s: string): string {
    StripRight(StripLeft(s))
  }

  /** The result of `strip()` is stripped at both ends and no longer than its input. */
  lemma StripShape(s: string)
    ensures IsStripped(Strip(s))
    ensures |Strip(s)| <= |s|
  {
    var left := StripLeft(s);
    StripLeftShape(s);
    StripRightShape(left);
    var r := StripRight(left);
    if r != [] {
      assert r[0] == left[0];
    }
  }

  /**
   * `s.strip()` is the slice of `s` between its leading and trailing
   * whitespace: everything it drops is whitespace.
   */
  lemma StripSlice(s: string) returns (i: nat)
    ensures i + |Strip(s)| <= |s| && Strip(s) == s[i..i + |Strip(s)|]
    ensures forall k :: 0 <= k < i ==> IsSpace(s[k])
    ensures forall k :: i + |Strip(s)| <= k < |s| ==> IsSpace(s[k])
  {
    var left := StripLeft(s);
    StripLeftShape(s);
    StripRightShape(left);
    var r := StripRight(left);
    i := |s| - |left|;
    StripSliceRight(s, i, left, r);
  }

  /** The trailing part `rstrip` drops from `s[i..]` is the tail of `s`. */
  lemma StripSliceRight(s: string, i: nat, left: string, r: string)
    requires i <= |s| && left == s[i..]
    requires |r| <= |left| && r == left[..|r|]
    requires forall k :: |r| <= k < |left| ==> IsSpace(left[k])
    ensures r == s[i..i + |r|]
    ensures forall k :: i + |r| <= k < |s| ==> IsSpace(s[k])
  {
    forall k | i + |r| <= k < |s|
      ensures IsSpace(s[k])
    {
      assert s[k] == left[k - i];
    }
  }

  /** `strip()` changes nothing in a stripped string, so it is idempotent. */
  lemma StripStripped(s: string)
    requires IsStripped(s)
    ensures Strip(s) == s
  {
  }

  /** A character that `s` lacks is absent from `s.strip()`. */
  lemma StripKeepsAbsent(s: string, c: char)
    requires c !in s
    ensures c !in Strip(s)
  {
    var i := StripSlice(s);
  }

  // ---------------------------------------------------------------------------
  // Reply clean-up
  // ---------------------------------------------------------------------------

  /** `[l.strip() for l in lines if l.strip()]`: stripped lines, blank ones dropped, order kept. */
  function CleanLines(lines: seq<string>): seq<string>
    decreases |lines|
  {
    if lines == [] then []
    else
      var t := Strip(lines[0]);
      (if t != [] then [t] else []) + CleanLines(lines[1..])
  }

  /** An entry of the cleaned list is exactly a non-blank line, stripped. */
  lemma {:induction false} CleanLinesMembership(lines: seq<string>, x: string)
    ensures x in CleanLines(lines) <==> x != [] && exists i :: 0 <= i < |lines| && Strip(lines[i]) == x
    decreases |lines|
  {
    if lines != [] {
      var rest := lines[1..];
      CleanLinesMembership(rest, x);
      if exists i :: 0 <= i < |lines| && Strip(lines[i]) == x {
        var i :| 0 <= i < |lines| && Strip(lines[i]) == x;
        if i > 0 {
          assert Strip(rest[i - 1]) == x;
        }
      }
      if exists j :: 0 <= j < |rest| && Strip(rest[j]) == x {
        var j :| 0 <= j < |rest| && Strip(rest[j]) == x;
        assert Strip(lines[j + 1]) == x;
      }
    }
  }

  /** The cleaned list is no longer than its input, and every entry is non-empty and stripped. */
  lemma CleanLinesShape(lines: seq<string>)
    ensures |CleanLines(lines)| <= |lines|
    ensures forall i :: 0 <= i < |CleanLines(lines)| ==> CleanLines(lines)[i] != [] && IsStripped(CleanLines(lines)[i])
    decreases |lines|
  {
    if lines != [] {
      CleanLinesShape(lines[1..]);
      StripShape(lines[0]);
    }
  }

  /** Cleaning a list whose entries are already non-empty and stripped keeps it as it is. */
  lemma {:induction false} CleanLinesFixed(lines: seq<string>)
    requires forall i :: 0 <= i < |lines| ==> lines[i] != [] && IsStripped(lines[i])
    ensures CleanLines(lines) == lines
    decreases |lines|
  {
    if lines != [] {
      StripStripped(lines[0]);
      CleanLinesFixed(lines[1..]);
      assert lines == [lines[0]] + lines[1..];
    }
  }

  /** The line list of a model reply: split on newline, strip, drop blanks. */
  function ReplyLines(reply: string): seq<string> {
    CleanLines(Split(reply, NEWLINE))
  }

  /** Every line of a reply's line list is non-empty, stripped and free of newlines. */
  lemma ReplyLinesShape(reply: string)
    ensures forall i :: 0 <= i < |ReplyLines(reply)| ==>
              var l := ReplyLines(reply)[i]; l != [] && IsStripped(l) && NEWLINE !in l
  {
    var pieces := Split(reply, NEWLINE);
    var r := CleanLines(pieces);
    CleanLinesShape(pieces);
    forall i | 0 <= i < |r| ensures NEWLINE !in r[i] {
      CleanLinesMembership(pieces, r[i]);
      var j :| 0 <= j < |pieces| && Strip(pieces[j]) == r[i];
      StripKeepsAbsent(pieces[j], NEWLINE);
    }
  }

  /**
   * A line list survives being joined with newlines and read back: the
   * result of `ReplyLines` is a fixed point of join-then-parse.
   */
  lemma ReplyLinesOfJoin(lines: seq<string>)
    requires forall i :: 0 <= i < |lines| ==> lines[i] != [] && IsStripped(lines[i]) && NEWLINE !in lines[i]
    ensures ReplyLines(Join(lines, NEWLINE)) == lines
  {
    if lines == [] {
      assert Split([], NEWLINE) == [[]];
      assert CleanLines([[]]) == CleanLines([]);
    } else {
      SplitJoin(lines, NEWLINE);
      CleanLinesFixed(lines);
    }
  }

  // ---------------------------------------------------------------------------
  // Query list clean-up
  // ---------------------------------------------------------------------------

  /** `q.startswith(prefix)`. */
  predicate StartsWith(q: string, prefix: string) {
    prefix <= q
  }

  /** `q.startswith(("Gaps:", "Original Query:", "Previous Queries:", "With this information"))`: an echoed prompt heading. */
  predicate IsBoilerplate(q: string) {
    || StartsWith(q, "Gaps:")
    || StartsWith(q, "Original Query:")
    || StartsWith(q, "Previous Queries:")
    || StartsWith(q, "With this information")
  }

  /** `[q for q in lines if not q.startswith((...))]`. */
  function DropBoilerplate(lines: seq<string>): seq<string>
    decreases |lines|
  {
    if lines == [] then []
    else (if IsBoilerplate(lines[0]) then [] else [lines[0]]) + DropBoilerplate(lines[1..])
  }

  /** The filter keeps exactly the lines that are not boilerplate. */
  lemma {:induction false} DropBoilerplateMembership(lines: seq<string>, x: string)
    ensures x in DropBoilerplate(lines) <==> x in lines && !IsBoilerplate(x)
    decreases |lines|
  {
    if lines != [] {
      DropBoilerplateMembership(lines[1..], x);
      assert lines == [lines[0]] + lines[1..];
    }
  }

  /**
   * The two comprehensions of the query list in one pass over the pieces of
   * the reply: each piece stripped, kept when it is not blank and not an
   * echoed prompt heading.
   */
  function QueryLines(pieces: seq<string>): seq<string>
    decreases |pieces|
  {
    if pieces == [] then []
    else
      var t := Strip(pieces[0]);
      (if t != [] && !IsBoilerplate(t) then [t] else []) + QueryLines(pieces[1..])
  }

  /** The one-pass query list is the heading filter applied to the cleaned lines. */
  lemma {:induction false} QueryLinesFilters(pieces: seq<string>)
    ensures QueryLines(pieces) == DropBoilerplate(CleanLines(pieces))
    decreases |pieces|
  {
    if pieces != [] {
      var t, rest := Strip(pieces[0]), pieces[1..];
      QueryLinesFilters(rest);
      if t != [] {
        assert CleanLines(pieces) == [t] + CleanLines(rest);
        DropBoilerplateCons(t, CleanLines(rest));
      } else {
        assert CleanLines(pieces) == CleanLines(rest);
      }
    }
  }

  /** The heading filter on a list with a known first line. */
  lemma DropBoilerplateCons(t: string, rest: seq<string>)
    ensures DropBoilerplate([t] + rest) == (if IsBoilerplate(t) then [] else [t]) + DropBoilerplate(rest)
  {
    assert ([t] + rest)[1..] == rest;
  }

  /** The query list of a model reply: its lines, without echoed prompt headings. */
  function ReplyQueries(reply: string): seq<string> {
    QueryLines(Split(reply, NEWLINE))
  }

  /** A query of the cleaned list is a reply line that is not boilerplate, and every such line is kept. */
  lemma ReplyQueriesMembership(reply: string, x: string)
    ensures x in ReplyQueries(reply) <==> x in ReplyLines(reply) && !IsBoilerplate(x)
  {
    QueryLinesFilters(Split(reply, NEWLINE));
    DropBoilerplateMembership(ReplyLines(reply), x);
  }

  /** Every query of a reply is non-empty, stripped, free of newlines and not an echoed heading. */
  lemma ReplyQueriesShape(reply: string)
    ensures forall i :: 0 <= i < |ReplyQueries(reply)| ==>
              var q := ReplyQueries(reply)[i]; q != [] && IsStripped(q) && NEWLINE !in q && !IsBoilerplate(q)
  {
    var r := ReplyQueries(reply);
    ReplyLinesShape(reply);
    forall i | 0 <= i < |r| ensures r[i] in ReplyLines(reply) && !IsBoilerplate(r[i]) {
      ReplyQueriesMembership(reply, r[i]);
    }
  }
}
