/** The content formatter of `getNotesHTML` in Node-JS/app.js: four global
    regular-expression replacements of the form `/D(.*?)D/g`, for the
    delimiters `***`, `**`, `*` and `||` in that order, followed by turning
    every line feed into `<br>`. The lazy `(.*?)` takes the nearest closing
    delimiter, and `.` never crosses a line terminator, so every replacement
    stays inside one line. */
module NoteFormat {
  import opened Common
  import opened Strings

  /** The characters JavaScript's `.` does not match. */
  predicate IsLineTerminator(c: char) {
    c == '\n' || c == '\r' || c == '\U{2028}' || c == '\U{2029}'
  }

  /** A delimiter the formatter uses: non-empty and free of line
      terminators. */
  predicate IsDelimiter(d: string) {
    |d| > 0 && forall k :: 0 <= k < |d| ==> !IsLineTerminator(d[k])
  }

  /** A closing delimiter `d` starts at position `k` of `t`. */
  predicate ClosesAt(t: string, d: string, k: int) {
    0 <= k && k + |d| <= |t| && t[k..k + |d|] == d
  }

  lemma ClosesAtTail(t: string, d: string, k: int)
    requires t != [] && k >= 1
    ensures ClosesAt(t, d, k) <==> ClosesAt(t[1..], d, k - 1)
  {
    if k + |d| <= |t| {
      assert t[k..k + |d|] == t[1..][k - 1..k - 1 + |d|];
    }
  }

  /** The lazy group of `D(.*?)D` once the opening `D` is consumed: the
      first position of `t` where a closing `D` starts, provided no line
      terminator comes before it (see `FindCloseFirst`). */
  function FindClose(t: string, d: string): (r: Option<nat>)
    requires IsDelimiter(d)
    ensures r.Some? ==> r.value + |d| <= |t|
  {
    if StartsWith(t, d) then Some(0)
    else if t == [] || IsLineTerminator(t[0]) then None
    else
      var r := FindClose(t[1..], d);
      if r.None? then None else Some(r.value + 1)
  }

  /** `FindClose` finds the nearest closing delimiter with no line
      terminator before it, and finds none exactly when every closing
      delimiter has a line terminator before it. */
  lemma {:induction false} FindCloseFirst(t: string, d: string)
    requires IsDelimiter(d)
    ensures var r := FindClose(t, d);
      (r.Some? ==> ClosesAt(t, d, r.value)) &&
      (r.Some? ==> forall k :: 0 <= k < r.value ==> !IsLineTerminator(t[k]) && !ClosesAt(t, d, k)) &&
      (r.None? ==> forall k :: ClosesAt(t, d, k) ==> exists m :: 0 <= m < k && IsLineTerminator(t[m]))
  {
    if StartsWith(t, d) {
    } else if t == [] || IsLineTerminator(t[0]) {
    } else {
      FindCloseFirst(t[1..], d);
      assert !ClosesAt(t, d, 0);
      forall k | 1 <= k ensures ClosesAt(t, d, k) <==> ClosesAt(t[1..], d, k - 1) {
        ClosesAtTail(t, d, k);
      }
      var r := FindClose(t[1..], d);
      if r.None? {
        forall k | ClosesAt(t, d, k) ensures exists m :: 0 <= m < k && IsLineTerminator(t[m]) {
          var m :| 0 <= m < k - 1 && IsLineTerminator(t[1..][m]);
          assert IsLineTerminator(t[m + 1]);
        }
      }
    }
  }

  /** `s` starts with an opening `D` that has a closing `D` on the same
      line. */
  predicate Opens(s: string, d: string)
    requires IsDelimiter(d)
  {
    StartsWith(s, d) && FindClose(s[|d|..], d).Some?
  }

  /** The text between the pair `s` opens with, the `$1` of the match. */
  function Inner(s: string, d: string): string
    requires IsDelimiter(d) && Opens(s, d)
  {
    s[|d|..][..FindClose(s[|d|..], d).value]
  }

  /** What follows the closing delimiter of that pair. */
  function After(s: string, d: string): (r: string)
    requires IsDelimiter(d) && Opens(s, d)
    ensures |r| < |s|
  {
    s[|d|..][FindClose(s[|d|..], d).value + |d|..]
  }

  /** `s.replace(/D(.*?)D/g, open + '$1' + close)`: scanning left to right,
      each opening `D` with a closing `D` later on the same line becomes
      `open`, the text between, and `close`; scanning resumes after the
      closing `D`. */
  function ReplaceDelim(s: string, d: string, open: string, close: string): (r: string)
    requires IsDelimiter(d)
    decreases |s|
  {
    if s == [] then []
    else if Opens(s, d) then open + Inner(s, d) + close + ReplaceDelim(After(s, d), d, open, close)
    else [s[0]] + ReplaceDelim(s[1..], d, open, close)
  }

  /** `s.replace(/\n/g, '<br>')`. */
  function BreakLines(s: string): (r: string)
    ensures '\n' !in r
    ensures '\n' !in s ==> r == s
  {
    if s == [] then []
    else (if s[0] == '\n' then "<br>" else [s[0]]) + BreakLines(s[1..])
  }

  /** The whole chain, in the order of the source; no line feed is left. */
  function Format(content: string): (r: string)
    ensures '\n' !in r
  {
    var a := ReplaceDelim(content, "***", "<strong>", "</strong>");
    var b := ReplaceDelim(a, "**", "<strong>", "</strong>");
    var c := ReplaceDelim(b, "*", "<em>", "</em>");
    var e := ReplaceDelim(c, "||", "<del>", "</del>");
    BreakLines(e)
  }

  // ---------------------------------------------------------------------
  // Properties

  /** A replacement whose delimiter does not start anywhere in `s` changes
      nothing. */
  lemma {:induction false} ReplaceDelimAbsent(s: string, d: string, open: string, close: string)
    requires IsDelimiter(d) && d[0] !in s
    ensures ReplaceDelim(s, d, open, close) == s
  {
    if s != [] {
      assert s[0] != d[0];
      ReplaceDelimAbsent(s[1..], d, open, close);
    }
  }

  /** Content with no `*`, no `|` and no line feed is shown as it is. */
  lemma FormatIdentity(content: string)
    requires '*' !in content && '|' !in content && '\n' !in content
    ensures Format(content) == content
  {
    ReplaceDelimAbsent(content, "***", "<strong>", "</strong>");
    ReplaceDelimAbsent(content, "**", "<strong>", "</strong>");
    ReplaceDelimAbsent(content, "*", "<em>", "</em>");
    ReplaceDelimAbsent(content, "||", "<del>", "</del>");
  }

  /** The formatted content contains no line feed. */
  lemma FormatHasNoLineFeed(content: string)
    ensures '\n' !in Format(content)
  {
  }

  /** A delimiter free of line terminators cannot start before a line
      terminator and end after it. */
  lemma StartsWithLocal(u: string, c: char, v: string, d: string)
    requires IsDelimiter(d) && IsLineTerminator(c)
    ensures StartsWith(u + [c] + v, d) <==> StartsWith(u, d)
  {
    var t := u + [c] + v;
    if |d| <= |u| {
      assert t[..|d|] == u[..|d|];
    } else if |d| <= |t| {
      assert t[..|d|][|u|] == c;
      assert !IsLineTerminator(d[|u|]);
    }
  }

  /** The search for a closing delimiter never looks past a line
      terminator. */
  lemma {:induction false} FindCloseLocal(u: string, c: char, v: string, d: string)
    requires IsDelimiter(d) && IsLineTerminator(c)
    ensures FindClose(u + [c] + v, d) == FindClose(u, d)
  {
    var t := u + [c] + v;
    StartsWithLocal(u, c, v, d);
    if StartsWith(u, d) {
    } else if u == [] {
      assert t[0] == c;
    } else {
      assert t[0] == u[0];
      if !IsLineTerminator(u[0]) {
        assert t[1..] == u[1..] + [c] + v;
        FindCloseLocal(u[1..], c, v, d);
      }
    }
  }

  lemma SlicesOfLine(u: string, c: char, b: string, n: nat)
    requires n <= |u|
    ensures (u + [c] + b)[..n] == u[..n]
    ensures (u + [c] + b)[n..] == u[n..] + [c] + b
  {
  }

  /** Whether a line opens a pair does not depend on what follows its line
      terminator. */
  lemma OpensLocal(a: string, c: char, b: string, d: string)
    requires IsDelimiter(d) && IsLineTerminator(c)
    ensures Opens(a + [c] + b, d) <==> Opens(a, d)
  {
    StartsWithLocal(a, c, b, d);
    if StartsWith(a, d) {
      SlicesOfLine(a, c, b, |d|);
      FindCloseLocal(a[|d|..], c, b, d);
    }
  }

  /** Nor do the text of that pair and what follows it on the line. */
  lemma PairLocal(a: string, c: char, b: string, d: string)
    requires IsDelimiter(d) && IsLineTerminator(c) && Opens(a, d)
    ensures Opens(a + [c] + b, d)
    ensures Inner(a + [c] + b, d) == Inner(a, d)
    ensures After(a + [c] + b, d) == After(a, d) + [c] + b
  {
    OpensLocal(a, c, b, d);
    SlicesOfLine(a, c, b, |d|);
    FindCloseLocal(a[|d|..], c, b, d);
    SlicesOfLine(a[|d|..], c, b, FindClose(a[|d|..], d).value);
    SlicesOfLine(a[|d|..], c, b, FindClose(a[|d|..], d).value + |d|);
  }

  /** A replacement splits at every line terminator: it acts on each line on
      its own. */
  lemma {:induction false} ReplaceDelimPerLine(a: string, c: char, b: string, d: string, open: string, close: string)
    requires IsDelimiter(d) && IsLineTerminator(c)
    ensures ReplaceDelim(a + [c] + b, d, open, close) == ReplaceDelim(a, d, open, close) + [c] + ReplaceDelim(b, d, open, close)
    decreases |a|
  {
    if a == [] {
      OpensLocal([], c, b, d);
      assert a + [c] + b == [c] + b;
      assert ([c] + b)[1..] == b;
    } else if Opens(a, d) {
      PairLocal(a, c, b, d);
      ReplaceDelimPerLine(After(a, d), c, b, d, open, close);
      Regroup(ReplaceDelim(a + [c] + b, d, open, close), ReplaceDelim(a, d, open, close),
              open + Inner(a, d) + close,
              ReplaceDelim(After(a, d) + [c] + b, d, open, close), ReplaceDelim(After(a, d), d, open, close),
              c, ReplaceDelim(b, d, open, close));
    } else {
      OpensLocal(a, c, b, d);
      SlicesOfLine(a, c, b, 1);
      ReplaceDelimPerLine(a[1..], c, b, d, open, close);
      Regroup(ReplaceDelim(a + [c] + b, d, open, close), ReplaceDelim(a, d, open, close),
              [a[0]],
              ReplaceDelim(a[1..] + [c] + b, d, open, close), ReplaceDelim(a[1..], d, open, close),
              c, ReplaceDelim(b, d, open, close));
    }
  }

  /** The string algebra that closes both steps of the induction. */
  lemma Regroup(whole: string, line: string, x: string, restWhole: string, restLine: string, c: char, after: string)
    requires whole == x + restWhole && line == x + restLine
    requires restWhole == restLine + [c] + after
    ensures whole == line + [c] + after
  {
    ConcatAssoc(x, restLine + [c], after);
    ConcatAssoc(x, restLine, [c]);
  }

  lemma {:induction false} BreakLinesAppend(a: string, b: string)
    ensures BreakLines(a + b) == BreakLines(a) + BreakLines(b)
  {
    if a == [] {
      assert a + b == b;
    } else {
      assert (a + b)[1..] == a[1..] + b;
      BreakLinesAppend(a[1..], b);
    }
  }

  /** Formatting two lines is formatting each and joining them with
      `<br>`: no emphasis reaches across a line feed. */
  lemma FormatPerLine(a: string, b: string)
    ensures Format(a + "\n" + b) == Format(a) + "<br>" + Format(b)
  {
    var nl := '\n';
    assert a + "\n" + b == a + [nl] + b;
    var a1 := ReplaceDelim(a, "***", "<strong>", "</strong>");
    var b1 := ReplaceDelim(b, "***", "<strong>", "</strong>");
    ReplaceDelimPerLine(a, nl, b, "***", "<strong>", "</strong>");
    var a2 := ReplaceDelim(a1, "**", "<strong>", "</strong>");
    var b2 := ReplaceDelim(b1, "**", "<strong>", "</strong>");
    ReplaceDelimPerLine(a1, nl, b1, "**", "<strong>", "</strong>");
    var a3 := ReplaceDelim(a2, "*", "<em>", "</em>");
    var b3 := ReplaceDelim(b2, "*", "<em>", "</em>");
    ReplaceDelimPerLine(a2, nl, b2, "*", "<em>", "</em>");
    var a4 := ReplaceDelim(a3, "||", "<del>", "</del>");
    var b4 := ReplaceDelim(b3, "||", "<del>", "</del>");
    ReplaceDelimPerLine(a3, nl, b3, "||", "<del>", "</del>");
    BreakLinesAppend(a4 + [nl], b4);
    BreakLinesAppend(a4, [nl]);
    assert BreakLines([nl]) == "<br>";
  }

  // ---------------------------------------------------------------------
  // The four markups on a single marked-up word

  /** Plain text for the markup lemmas: no `*`, no `|` and no line
      terminator. */
  predicate Plain(x: string) {
    forall k :: 0 <= k < |x| ==> x[k] != '*' && x[k] != '|' && !IsLineTerminator(x[k])
  }

  /** After the opening delimiter, the closing one that ends plain text is
      the one found. */
  lemma {:induction false} FindCloseAfterPlain(x: string, d: string)
    requires IsDelimiter(d) && (d[0] == '*' || d[0] == '|') && Plain(x)
    ensures FindClose(x + d, d) == Some(|x|)
  {
    if x == [] {
      assert x + d == d;
    } else {
      assert (x + d)[0] == x[0];
      assert (x + d)[1..] == x[1..] + d;
      FindCloseAfterPlain(x[1..], d);
    }
  }

  /** `D x D` on plain `x` becomes `open x close`. */
  lemma ReplacePair(x: string, d: string, open: string, close: string)
    requires IsDelimiter(d) && (d[0] == '*' || d[0] == '|') && Plain(x)
    ensures ReplaceDelim(d + x + d, d, open, close) == open + x + close
  {
    var s := d + x + d;
    assert s[..|d|] == d;
    assert s[|d|..] == x + d;
    FindCloseAfterPlain(x, d);
    assert Inner(s, d) == x;
    assert After(s, d) == [];
    assert open + x + close + [] == open + x + close;
  }

  /** A replacement whose delimiter starts nowhere in `s` changes nothing. */
  lemma {:induction false} ReplaceDelimNoOpen(s: string, d: string, open: string, close: string)
    requires IsDelimiter(d) && forall k :: 0 <= k <= |s| ==> !StartsWith(s[k..], d)
    ensures ReplaceDelim(s, d, open, close) == s
  {
    if s != [] {
      assert s[0..] == s;
      forall k | 0 <= k <= |s[1..]| ensures !StartsWith(s[1..][k..], d) {
        assert s[1..][k..] == s[k + 1..];
      }
      ReplaceDelimNoOpen(s[1..], d, open, close);
    }
  }

  /** In `D x D` with plain, non-empty `x`, no longer run of the delimiter's
      character starts anywhere. */
  lemma NoLongerRun(x: string, d: string, e: string)
    requires IsDelimiter(d) && Plain(x) && x != []
    requires forall k :: 0 <= k < |d| ==> d[k] == '*'
    requires |e| > |d| && forall k :: 0 <= k < |e| ==> e[k] == '*'
    ensures forall k :: 0 <= k <= |d + x + d| ==> !StartsWith((d + x + d)[k..], e)
  {
    var s := d + x + d;
    forall k | 0 <= k <= |s| ensures !StartsWith(s[k..], e) {
      if k < |d| {
        assert s[|d|] == x[0];
      } else if k < |d| + |x| {
        assert s[k] == x[k - |d|];
      }
    }
  }

  /** No character any step of the formatter looks for. */
  predicate MarkFree(s: string) {
    '*' !in s && '|' !in s && '\n' !in s
  }

  /** The tags the formatter writes are themselves free of markup. */
  lemma TagsMarkFree()
    ensures MarkFree("<strong>") && MarkFree("</strong>")
    ensures MarkFree("<em>") && MarkFree("</em>")
    ensures MarkFree("<del>") && MarkFree("</del>")
  {
  }

  /** Plain text wrapped in markup-free tags is markup-free. */
  lemma WrappedMarkFree(open: string, x: string, close: string)
    requires Plain(x) && MarkFree(open) && MarkFree(close)
    ensures MarkFree(open + x + close)
  {
    assert MarkFree(x);
  }

  /** Text without `*` passes the star replacements unchanged. */
  lemma StarsUntouched(r: string)
    requires '*' !in r
    ensures ReplaceDelim(r, "***", "<strong>", "</strong>") == r
    ensures ReplaceDelim(r, "**", "<strong>", "</strong>") == r
    ensures ReplaceDelim(r, "*", "<em>", "</em>") == r
  {
    ReplaceDelimAbsent(r, "***", "<strong>", "</strong>");
    ReplaceDelimAbsent(r, "**", "<strong>", "</strong>");
    ReplaceDelimAbsent(r, "*", "<em>", "</em>");
  }

  /** Text without `|` or line feeds passes the last two steps unchanged. */
  lemma RestUntouched(r: string)
    requires '|' !in r && '\n' !in r
    ensures ReplaceDelim(r, "||", "<del>", "</del>") == r
    ensures BreakLines(r) == r
  {
    ReplaceDelimAbsent(r, "||", "<del>", "</del>");
  }

  /** `Format` as its five steps, each result named. */
  lemma FormatSteps(content: string, a: string, b: string, c: string, e: string)
    requires a == ReplaceDelim(content, "***", "<strong>", "</strong>")
    requires b == ReplaceDelim(a, "**", "<strong>", "</strong>")
    requires c == ReplaceDelim(b, "*", "<em>", "</em>")
    requires e == ReplaceDelim(c, "||", "<del>", "</del>")
    ensures Format(content) == BreakLines(e)
  {
  }

  /** `***x***` is shown as `<strong>x</strong>`. */
  lemma FormatTripleStar(x: string)
    requires Plain(x)
    ensures Format("***" + x + "***") == "<strong>" + x + "</strong>"
  {
    var r := "<strong>" + x + "</strong>";
    ReplacePair(x, "***", "<strong>", "</strong>");
    TagsMarkFree();
    WrappedMarkFree("<strong>", x, "</strong>");
    StarsUntouched(r);
    RestUntouched(r);
    FormatSteps("***" + x + "***", r, r, r, r);
  }

  /** `**x**` is shown as `<strong>x</strong>`. */
  lemma FormatDoubleStar(x: string)
    requires Plain(x) && x != []
    ensures Format("**" + x + "**") == "<strong>" + x + "</strong>"
  {
    var s := "**" + x + "**";
    var r := "<strong>" + x + "</strong>";
    assert ReplaceDelim(s, "***", "<strong>", "</strong>") == s by {
      NoLongerRun(x, "**", "***");
      ReplaceDelimNoOpen(s, "***", "<strong>", "</strong>");
    }
    ReplacePair(x, "**", "<strong>", "</strong>");
    TagsMarkFree();
    WrappedMarkFree("<strong>", x, "</strong>");
    StarsUntouched(r);
    RestUntouched(r);
    FormatSteps(s, s, r, r, r);
  }

  /** `*x*` is shown as `<em>x</em>`. */
  lemma FormatStar(x: string)
    requires Plain(x) && x != []
    ensures Format("*" + x + "*") == "<em>" + x + "</em>"
  {
    var s := "*" + x + "*";
    var r := "<em>" + x + "</em>";
    assert ReplaceDelim(s, "***", "<strong>", "</strong>") == s by {
      NoLongerRun(x, "*", "***");
      ReplaceDelimNoOpen(s, "***", "<strong>", "</strong>");
    }
    assert ReplaceDelim(s, "**", "<strong>", "</strong>") == s by {
      NoLongerRun(x, "*", "**");
      ReplaceDelimNoOpen(s, "**", "<strong>", "</strong>");
    }
    ReplacePair(x, "*", "<em>", "</em>");
    TagsMarkFree();
    WrappedMarkFree("<em>", x, "</em>");
    RestUntouched(r);
    FormatSteps(s, s, s, r, r);
  }

  /** `||x||` is shown as `<del>x</del>`. */
  lemma FormatStrike(x: string)
    requires Plain(x)
    ensures Format("||" + x + "||") == "<del>" + x + "</del>"
  {
    var s := "||" + x + "||";
    var r := "<del>" + x + "</del>";
    assert '*' !in s by {
      assert MarkFree(x);
    }
    StarsUntouched(s);
    TagsMarkFree();
    WrappedMarkFree("<del>", x, "</del>");
    ReplacePair(x, "||", "<del>", "</del>");
    RestUntouched(r);
    FormatSteps(s, s, s, s, r);
  }
}
