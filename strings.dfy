/** The JavaScript string operations the applications rely on, on `string`
    (a sequence of `char`): `trim`, `split` on one separator character,
    `join`, `startsWith`, ASCII `toLowerCase` and decimal rendering of
    numbers. Every `split(',').map(trim).filter(nonEmpty)` chain in the
    repository is the single function `CommaList`. */
module Strings {
  import opened Common

  /** ECMAScript WhiteSpace and LineTerminator code points: what
      `String.prototype.trim` removes. */
  predicate IsWhitespace(c: char) {
    || c == '\t' || c == '\n' || c == '\U{000B}' || c == '\U{000C}' || c == '\r'
    || c == ' ' || c == '\U{00A0}' || c == '\U{1680}'
    || ('\U{2000}' <= c <= '\U{200A}')
    || c == '\U{2028}' || c == '\U{2029}' || c == '\U{202F}' || c == '\U{205F}'
    || c == '\U{3000}' || c == '\U{FEFF}'
  }

  predicate IsBlank(s: string) {
    forall k :: 0 <= k < |s| ==> IsWhitespace(s[k])
  }

  /** Neither end of `s` is whitespace (the empty string qualifies). */
  predicate IsTrimmed(s: string) {
    s == [] || (!IsWhitespace(s[0]) && !IsWhitespace(s[|s| - 1]))
  }

  function TrimStart(s: string): (r: string)
    ensures |r| <= |s| && r == s[|s| - |r|..]
    ensures forall k :: 0 <= k < |s| - |r| ==> IsWhitespace(s[k])
    ensures r != [] ==> !IsWhitespace(r[0])
  {
    if s != [] && IsWhitespace(s[0]) then TrimStart(s[1..]) else s
  }

  function TrimEnd(s: string): (r: string)
    ensures |r| <= |s| && r == s[..|r|]
    ensures forall k :: |r| <= k < |s| ==> IsWhitespace(s[k])
    ensures r != [] ==> !IsWhitespace(r[|r| - 1])
  {
    if s != [] && IsWhitespace(s[|s| - 1]) then TrimEnd(s[..|s| - 1]) else s
  }

  /** `String.prototype.trim`: the slice of `s` left once leading and
      trailing whitespace is removed. */
  function Trim(s: string): (r: string)
    ensures IsTrimmed(r)
    ensures r == [] <==> IsBlank(s)
    ensures IsTrimmed(s) ==> r == s
    ensures exists i :: TrimmedAt(s, r, i)
  {
    var t := TrimStart(s);
    var r := TrimEnd(t);
    TrimSlice(s, t, r);
    r
  }

  /** Dropping leading whitespace and then trailing whitespace leaves a
      trimmed slice with only whitespace around it. */
  lemma TrimSlice(s: string, t: string, r: string)
    requires |t| <= |s| && t == s[|s| - |t|..]
    requires forall k :: 0 <= k < |s| - |t| ==> IsWhitespace(s[k])
    requires t != [] ==> !IsWhitespace(t[0])
    requires |r| <= |t| && r == t[..|r|]
    requires forall k :: |r| <= k < |t| ==> IsWhitespace(t[k])
    requires r != [] ==> !IsWhitespace(r[|r| - 1])
    ensures IsTrimmed(r)
    ensures r == [] <==> IsBlank(s)
    ensures IsTrimmed(s) ==> r == s
    ensures TrimmedAt(s, r, |s| - |t|)
  {
    assert r != [] ==> r[0] == t[0];
    assert r == [] ==> t == [];
    assert IsBlank(s) ==> t == [];
    var i := |s| - |t|;
    assert s[i..][..|r|] == s[i..i + |r|];
    assert s[i + |r|..] == t[|r|..];
  }

  /** `r` is the slice of `s` at `i`, with only whitespace before and after
      it. */
  predicate TrimmedAt(s: string, r: string, i: int) {
    && 0 <= i <= |s| - |r| && r == s[i..i + |r|]
    && IsBlank(s[..i]) && IsBlank(s[i + |r|..])
  }

  /** Leading whitespace never survives `trim`. */
  lemma TrimSkipsLeadingSpace(s: string)
    ensures Trim(" " + s) == Trim(s)
  {
    assert (" " + s)[1..] == s;
  }

  /** Number of occurrences of `c` in `s`. */
  function Occurrences(s: string, c: char): nat {
    if s == [] then 0 else (if s[0] == c then 1 else 0) + Occurrences(s[1..], c)
  }

  /** `s.split(sep)` for a one-character separator: the pieces between
      separators, including an empty piece before a leading separator, after
      a trailing one and for the empty string. */
  function Split(s: string, sep: char): (r: seq<string>)
    ensures |r| == Occurrences(s, sep) + 1
    ensures forall i :: 0 <= i < |r| ==> sep !in r[i]
  {
    if s == [] then [""]
    else if s[0] == sep then [""] + Split(s[1..], sep)
    else
      var rest := Split(s[1..], sep);
      [[s[0]] + rest[0]] + rest[1..]
  }

  /** `parts.join(sep)`. */
  function Join(parts: seq<string>, sep: string): string {
    if |parts| == 0 then ""
    else if |parts| == 1 then parts[0]
    else parts[0] + sep + Join(parts[1..], sep)
  }

  lemma {:induction false} SplitNoSeparator(s: string, sep: char)
    requires sep !in s
    ensures Split(s, sep) == [s]
  {
    if s != [] {
      SplitNoSeparator(s[1..], sep);
      assert [s[0]] + s[1..] == s;
    }
  }

  /** Splitting at a separator that is present splits the pieces. */
  lemma {:induction false} SplitAppend(a: string, sep: char, b: string)
    ensures Split(a + [sep] + b, sep) == Split(a, sep) + Split(b, sep)
  {
    if a == [] {
      assert a + [sep] + b == [sep] + b;
      assert ([sep] + b)[1..] == b;
    } else {
      assert (a + [sep] + b)[1..] == a[1..] + [sep] + b;
      SplitAppend(a[1..], sep, b);
    }
  }

  /** `s.split(sep).join(sep) === s`. */
  lemma {:induction false} JoinSplit(s: string, sep: char)
    ensures Join(Split(s, sep), [sep]) == s
  {
    if s == [] {
    } else if s[0] == sep {
      JoinSplit(s[1..], sep);
      assert s == [sep] + s[1..];
    } else {
      JoinSplit(s[1..], sep);
      var rest := Split(s[1..], sep);
      if |rest| == 1 {
        assert s == [s[0]] + rest[0];
      } else {
        assert rest == [rest[0]] + rest[1..];
        assert Join(rest, [sep]) == rest[0] + [sep] + Join(rest[1..], [sep]);
        assert s == [s[0]] + rest[0] + [sep] + Join(rest[1..], [sep]);
      }
    }
  }

  /** Joining pieces that do not contain the separator and splitting again
      gives the pieces back. */
  lemma {:induction false} SplitJoin(parts: seq<string>, sep: char)
    requires |parts| >= 1
    requires forall i :: 0 <= i < |parts| ==> sep !in parts[i]
    ensures Split(Join(parts, [sep]), sep) == parts
  {
    if |parts| == 1 {
      SplitNoSeparator(parts[0], sep);
    } else {
      SplitJoin(parts[1..], sep);
      SplitNoSeparator(parts[0], sep);
      SplitAppend(parts[0], sep, Join(parts[1..], [sep]));
      assert parts == [parts[0]] + parts[1..];
    }
  }

  /** `s.split(',').map(x => x.trim()).filter(x => x)`: the non-empty trimmed
      comma-separated entries of `s`, in order. */
  function CommaList(s: string): seq<string> {
    NonEmpty(TrimAll(Split(s, ',')))
  }

  function TrimAll(parts: seq<string>): (r: seq<string>)
    ensures |r| == |parts|
    ensures forall i :: 0 <= i < |parts| ==> r[i] == Trim(parts[i])
  {
    if parts == [] then [] else [Trim(parts[0])] + TrimAll(parts[1..])
  }

  function NonEmpty(parts: seq<string>): (r: seq<string>)
    ensures forall x :: x in r ==> x in parts && x != ""
    ensures forall x :: x in parts && x != "" ==> x in r
  {
    if parts == [] then []
    else if parts[0] == "" then NonEmpty(parts[1..])
    else [parts[0]] + NonEmpty(parts[1..])
  }

  /** A well-formed comma-list entry: non-empty, no surrounding whitespace and
      no comma. */
  predicate IsEntry(x: string) {
    x != "" && IsTrimmed(x) && ',' !in x
  }

  /** Every entry `CommaList` returns is non-empty, trimmed and comma-free. */
  lemma {:induction false} CommaListEntries(s: string)
    ensures forall x :: x in CommaList(s) ==> IsEntry(x)
  {
    var parts := Split(s, ',');
    forall x | x in CommaList(s) ensures IsEntry(x) {
      assert x in TrimAll(parts);
      var i :| 0 <= i < |parts| && TrimAll(parts)[i] == x;
      TrimIsSlice(parts[i]);
    }
  }

  /** The trimmed string is a contiguous piece of the original, so it holds no
      character the original lacks. */
  lemma TrimIsSlice(s: string)
    ensures forall c :: c in Trim(s) ==> c in s
  {
    forall c | c in Trim(s) ensures c in s {
      var k :| 0 <= k < |Trim(s)| && Trim(s)[k] == c;
      TrimCharAt(s, k);
    }
  }

  lemma TrimCharAt(s: string, k: nat)
    requires k < |Trim(s)|
    ensures Trim(s)[k] == s[|s| - |TrimStart(s)| + k]
  {
    assert Trim(s) == TrimEnd(TrimStart(s));
    assert Trim(s)[k] == TrimStart(s)[k];
  }

  /** An entry is exactly one comma-free piece of `s` whose trim is that
      entry: `x` is listed iff some piece trims to `x`. */
  lemma CommaListMembership(s: string, x: string)
    ensures x in CommaList(s) <==> x != "" && exists p :: p in Split(s, ',') && Trim(p) == x
  {
    if x != "" && exists p :: p in Split(s, ',') && Trim(p) == x {
      var p :| p in Split(s, ',') && Trim(p) == x;
      TrimmedPieceListed(Split(s, ','), p);
    }
  }

  lemma TrimmedPieceListed(parts: seq<string>, p: string)
    requires p in parts && Trim(p) != ""
    ensures Trim(p) in NonEmpty(TrimAll(parts))
  {
    var i :| 0 <= i < |parts| && parts[i] == p;
    assert TrimAll(parts)[i] == Trim(p);
  }

  /** The list of `a + "," + b` is the list of `a` followed by the list of
      `b`: entries keep their input order. */
  lemma CommaListAppend(a: string, b: string)
    ensures CommaList(a + "," + b) == CommaList(a) + CommaList(b)
  {
    SplitAppend(a, ',', b);
    TrimAllAppend(Split(a, ','), Split(b, ','));
    NonEmptyAppend(TrimAll(Split(a, ',')), TrimAll(Split(b, ',')));
  }

  lemma {:induction false} TrimAllAppend(a: seq<string>, b: seq<string>)
    ensures TrimAll(a + b) == TrimAll(a) + TrimAll(b)
  {
    if a != [] {
      assert (a + b)[1..] == a[1..] + b;
      TrimAllAppend(a[1..], b);
    } else {
      assert a + b == b;
    }
  }

  lemma {:induction false} NonEmptyAppend(a: seq<string>, b: seq<string>)
    ensures NonEmpty(a + b) == NonEmpty(a) + NonEmpty(b)
  {
    if a != [] {
      assert (a + b)[1..] == a[1..] + b;
      NonEmptyAppend(a[1..], b);
    } else {
      assert a + b == b;
    }
  }

  /** A single well-formed entry lists as itself. */
  lemma CommaListOfEntry(x: string)
    requires IsEntry(x)
    ensures CommaList(x) == [x]
  {
    SplitNoSeparator(x, ',');
    assert TrimAll([x]) == [x];
    assert NonEmpty([x]) == [x] + NonEmpty([]);
  }

  /** Whitespace in front of the first entry is trimmed away. */
  lemma {:induction false} CommaListLeadingSpace(s: string)
    ensures CommaList(" " + s) == CommaList(s)
  {
    var parts := Split(s, ',');
    assert (" " + s)[1..] == s;
    assert (" " + s)[0] == ' ';
    var parts' := Split(" " + s, ',');
    assert parts' == [" " + parts[0]] + parts[1..];
    TrimSkipsLeadingSpace(parts[0]);
    assert parts == [parts[0]] + parts[1..];
    assert TrimAll(parts') == [Trim(parts[0])] + TrimAll(parts[1..]);
    assert TrimAll(parts) == [Trim(parts[0])] + TrimAll(parts[1..]);
  }

  /** Joining well-formed entries with ", " and listing the result gives the
      entries back. */
  lemma {:induction false} CommaListJoin(xs: seq<string>)
    requires forall i :: 0 <= i < |xs| ==> IsEntry(xs[i])
    ensures CommaList(Join(xs, ", ")) == xs
    decreases |xs|, 1
  {
    if |xs| == 0 {
      CommaListOfEmpty();
    } else if |xs| == 1 {
      CommaListJoinOne(xs);
    } else {
      CommaListJoinMany(xs);
    }
  }

  lemma CommaListJoinOne(xs: seq<string>)
    requires |xs| == 1 && IsEntry(xs[0])
    ensures CommaList(Join(xs, ", ")) == xs
  {
    CommaListOfEntry(xs[0]);
    assert xs == [xs[0]];
  }

  lemma {:induction false} CommaListJoinMany(xs: seq<string>)
    requires |xs| >= 2
    requires forall i :: 0 <= i < |xs| ==> IsEntry(xs[i])
    ensures CommaList(Join(xs, ", ")) == xs
    decreases |xs|, 0
  {
    CommaListJoinStep(xs);
    CommaListJoin(xs[1..]);
    ConsBack(xs, CommaList(Join(xs, ", ")), CommaList(Join(xs[1..], ", ")));
  }

  lemma ConsBack<T>(xs: seq<T>, whole: seq<T>, rest: seq<T>)
    requires |xs| >= 1 && whole == [xs[0]] + rest && rest == xs[1..]
    ensures whole == xs
  {
  }

  lemma CommaListOfEmpty()
    ensures CommaList("") == []
  {
    assert Split("", ',') == [""];
    assert TrimAll([""]) == [""];
  }

  /** The first entry of a joined list lists as itself, in front of the
      rest. */
  lemma CommaListJoinStep(xs: seq<string>)
    requires |xs| >= 2 && IsEntry(xs[0])
    ensures CommaList(Join(xs, ", ")) == [xs[0]] + CommaList(Join(xs[1..], ", "))
  {
    JoinHead(xs);
    CommaListAppend(xs[0], " " + Join(xs[1..], ", "));
    CommaListOfEntry(xs[0]);
    CommaListLeadingSpace(Join(xs[1..], ", "));
  }

  /** The first entry, then the comma, then the space before the rest. */
  lemma JoinHead(xs: seq<string>)
    requires |xs| >= 2
    ensures Join(xs, ", ") == xs[0] + "," + (" " + Join(xs[1..], ", "))
  {
    var rest := Join(xs[1..], ", ");
    ConcatAssoc(xs[0] + ",", " ", rest);
    ConcatAssoc(xs[0], ",", " ");
    assert ", " == "," + " ";
  }

  /** Concatenation is associative; stated once so that proofs can
      regroup long concatenations step by step. */
  lemma ConcatAssoc(x: string, y: string, z: string)
    ensures x + (y + z) == (x + y) + z
  {
  }

  /** `s.startsWith(prefix)`. */
  predicate StartsWith(s: string, prefix: string) {
    |prefix| <= |s| && s[..|prefix|] == prefix
  }

  /** `toLowerCase` restricted to ASCII letters. */
  function ToLowerChar(c: char): char {
    if 'A' <= c <= 'Z' then (c as int + 32) as char else c
  }

  function ToLower(s: string): (r: string)
    ensures |r| == |s|
    ensures forall k :: 0 <= k < |s| ==> r[k] == ToLowerChar(s[k])
  {
    if s == [] then [] else [ToLowerChar(s[0])] + ToLower(s[1..])
  }

  /** Lower-casing works character by character. */
  lemma {:induction false} ToLowerAppend(a: string, b: string)
    ensures ToLower(a + b) == ToLower(a) + ToLower(b)
  {
    if a == [] {
      assert a + b == b;
    } else {
      assert (a + b)[1..] == a[1..] + b;
      ToLowerAppend(a[1..], b);
    }
  }

  /** Decimal rendering of a natural number, as JavaScript's `String(n)`. */
  function NatToString(n: nat): (r: string)
    ensures |r| >= 1
    ensures forall k :: 0 <= k < |r| ==> '0' <= r[k] <= '9'
    ensures n < 10 <==> |r| == 1
    decreases n
  {
    if n < 10 then [Digit(n)] else NatToString(n / 10) + [Digit(n % 10)]
  }

  function Digit(d: nat): (c: char)
    requires d < 10
    ensures '0' <= c <= '9'
    ensures c as int - '0' as int == d
  {
    ('0' as int + d) as char
  }

  /** Different numbers render differently. */
  lemma {:induction false} NatToStringInjective(m: nat, n: nat)
    requires NatToString(m) == NatToString(n)
    ensures m == n
    decreases m + n
  {
    var r := NatToString(m);
    if m < 10 || n < 10 {
      assert |r| == 1;
      assert Digit(m) == r[0] == Digit(n);
    } else {
      var a, b := NatToString(m / 10), NatToString(n / 10);
      assert a + [Digit(m % 10)] == b + [Digit(n % 10)];
      assert |a| == |b|;
      assert a == (a + [Digit(m % 10)])[..|a|];
      assert b == (b + [Digit(n % 10)])[..|b|];
      assert Digit(m % 10) == r[|r| - 1] == Digit(n % 10);
      NatToStringInjective(m / 10, n / 10);
    }
  }
}
