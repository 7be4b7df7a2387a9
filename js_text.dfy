/**
 * The JavaScript built-ins the generator relies on, with their own semantics:
 * String.prototype.trim / startsWith / endsWith / includes / split / join,
 * Array.from(new Set(xs)) (first-seen de-duplication), the default
 * Array.prototype.sort order on strings, toLowerCase on ASCII letters,
 * JSON.stringify of a string and String(n) of an integer.
 */
module JsText {

  datatype Option<T> = None | Some(value: T)

  /** A computation that either returns a value or throws a TypeError. */
  datatype Result<T> = Ok(value: T) | TypeError(message: string)

  // ------------------------------------------------------------------
  // Characters

  /** WhiteSpace and LineTerminator code points: what trim() removes and `\s` matches. */
  predicate IsJsSpace(c: char)
  {
    c == ' ' || c == '\t' || c == '\n' || c == '\U{000B}' || c == '\U{000C}' || c == '\r'
    || c == '\U{00A0}' || c == '\U{1680}' || ('\U{2000}' <= c <= '\U{200A}')
    || c == '\U{2028}' || c == '\U{2029}' || c == '\U{202F}' || c == '\U{205F}'
    || c == '\U{3000}' || c == '\U{FEFF}'
  }

  /** The characters a regular-expression `.` does not match. */
  predicate IsLineTerminator(c: char)
  {
    c == '\n' || c == '\r' || c == '\U{2028}' || c == '\U{2029}'
  }

  predicate IsAsciiUpper(c: char) { 'A' <= c <= 'Z' }

  predicate IsAsciiLower(c: char) { 'a' <= c <= 'z' }

  predicate IsDigit(c: char) { '0' <= c <= '9' }

  /** `\w`: ASCII letters, digits and underscore. */
  predicate IsWordChar(c: char) { IsAsciiUpper(c) || IsAsciiLower(c) || IsDigit(c) || c == '_' }

  function LowerChar(c: char): char
  {
    if IsAsciiUpper(c) then (c as int + 32) as char else c
  }

  /** toLowerCase, for the ASCII letters. */
  function Lower(s: string): (r: string)
    ensures |r| == |s|
    ensures forall i :: 0 <= i < |s| ==> r[i] == LowerChar(s[i])
  {
    if |s| == 0 then "" else [LowerChar(s[0])] + Lower(s[1..])
  }

  // ------------------------------------------------------------------
  // Prefixes, suffixes, substrings

  predicate StartsWith(s: string, p: string)
  {
    |p| <= |s| && s[..|p|] == p
  }

  predicate EndsWith(s: string, p: string)
  {
    |p| <= |s| && s[|s| - |p|..] == p
  }

  /** s.includes(p) */
  predicate Contains(s: string, p: string)
    decreases |s|
  {
    StartsWith(s, p) || (|s| > 0 && Contains(s[1..], p))
  }

  lemma {:induction false} ContainsAt(s: string, p: string, i: nat)
    requires i + |p| <= |s| && s[i..i + |p|] == p
    ensures Contains(s, p)
    decreases i
  {
    if i > 0 {
      assert s[1..][i - 1..i - 1 + |p|] == s[i..i + |p|];
      ContainsAt(s[1..], p, i - 1);
    } else {
      assert s[..|p|] == p;
    }
  }

  /** includes() holds exactly when some window of s spells p. */
  lemma {:induction false} ContainsWitness(s: string, p: string) returns (i: nat)
    requires Contains(s, p)
    ensures i + |p| <= |s| && s[i..i + |p|] == p
    decreases |s|
  {
    if StartsWith(s, p) {
      i := 0;
    } else {
      var j := ContainsWitness(s[1..], p);
      assert s[1..][j..j + |p|] == s[j + 1..j + 1 + |p|];
      i := j + 1;
    }
  }

  lemma {:induction false} ContainsPrefix(s: string, t: string, p: string)
    requires Contains(s, p)
    ensures Contains(s + t, p)
  {
    var i := ContainsWitness(s, p);
    assert (s + t)[i..i + |p|] == s[i..i + |p|];
    ContainsAt(s + t, p, i);
  }

  lemma {:induction false} ContainsSuffix(s: string, t: string, p: string)
    requires Contains(t, p)
    ensures Contains(s + t, p)
  {
    var i := ContainsWitness(t, p);
    assert (s + t)[|s| + i..|s| + i + |p|] == t[i..i + |p|];
    ContainsAt(s + t, p, |s| + i);
  }

  /** No window of s can spell p when no position that could start one holds p's first character. */
  lemma NotContainsByFirst(s: string, p: string)
    requires |p| > 0
    requires forall i :: 0 <= i && i + |p| <= |s| ==> s[i] != p[0]
    ensures !Contains(s, p)
  {
    if Contains(s, p) {
      var i := ContainsWitness(s, p);
    }
  }

  /** s.indexOf(p): the first position where p occurs, or None for -1. */
  function IndexOfStr(s: string, p: string): (r: Option<nat>)
    ensures r.None? <==> !Contains(s, p)
    ensures r.Some? ==> r.value + |p| <= |s| && s[r.value..r.value + |p|] == p
    decreases |s|
  {
    if StartsWith(s, p) then Some(0)
    else if |s| == 0 then None
    else match IndexOfStr(s[1..], p)
      case None => None
      case Some(k) =>
        assert s[1..][k..k + |p|] == s[k + 1..k + 1 + |p|];
        Some(k + 1)
  }

  /** s.replace(p, rep) with a string pattern: only the first occurrence is replaced. */
  function ReplaceFirst(s: string, p: string, rep: string): (r: string)
  {
    match IndexOfStr(s, p)
    case None => s
    case Some(i) => s[..i] + rep + s[i + |p|..]
  }

  /** A pattern at the very start is the one replaced. */
  lemma ReplaceFirstAtStart(p: string, rest: string, rep: string)
    ensures ReplaceFirst(p + rest, p, rep) == rep + rest
  {
    var s := p + rest;
    assert s[..|p|] == p;
    assert IndexOfStr(s, p) == Some(0);
    assert s[..0] == [] && s[|p|..] == rest;
  }

  /** s.indexOf(c) for a single character, or None for -1. */
  function IndexOfChar(s: string, c: char): (r: Option<nat>)
    ensures r.None? <==> c !in s
    ensures r.Some? ==> r.value < |s| && s[r.value] == c && c !in s[..r.value]
  {
    if |s| == 0 then None
    else if s[0] == c then Some(0)
    else match IndexOfChar(s[1..], c)
      case None => None
      case Some(k) => assert s[1..][..k] == s[1..k + 1]; Some(k + 1)
  }

  // ------------------------------------------------------------------
  // trim(), trimStart(), trimEnd()

  function TrimStart(s: string): string
  {
    if |s| > 0 && IsJsSpace(s[0]) then TrimStart(s[1..]) else s
  }

  function TrimEnd(s: string): string
  {
    if |s| > 0 && IsJsSpace(s[|s| - 1]) then TrimEnd(s[..|s| - 1]) else s
  }

  function Trim(s: string): string
  {
    TrimEnd(TrimStart(s))
  }

  /** trimStart() drops the leading white space and nothing else. */
  lemma {:induction false} TrimStartSpec(s: string)
    ensures |TrimStart(s)| <= |s| && TrimStart(s) == s[|s| - |TrimStart(s)|..]
    ensures forall k :: 0 <= k < |s| - |TrimStart(s)| ==> IsJsSpace(s[k])
    ensures |TrimStart(s)| == 0 || !IsJsSpace(TrimStart(s)[0])
    decreases |s|
  {
    if |s| > 0 && IsJsSpace(s[0]) {
      TrimStartSpec(s[1..]);
    }
  }

  /** trimEnd() drops the trailing white space and nothing else. */
  lemma {:induction false} TrimEndSpec(s: string)
    ensures |TrimEnd(s)| <= |s| && TrimEnd(s) == s[..|TrimEnd(s)|]
    ensures forall k :: |TrimEnd(s)| <= k < |s| ==> IsJsSpace(s[k])
    ensures |TrimEnd(s)| == 0 || !IsJsSpace(TrimEnd(s)[|TrimEnd(s)| - 1])
    decreases |s|
  {
    if |s| > 0 && IsJsSpace(s[|s| - 1]) {
      TrimEndSpec(s[..|s| - 1]);
    }
  }

  /** trim() returns a slice of s with no white space at either end. */
  lemma TrimIsTrimmed(s: string) returns (i: nat)
    ensures i + |Trim(s)| <= |s| && s[i..i + |Trim(s)|] == Trim(s)
    ensures |Trim(s)| == 0 || (!IsJsSpace(Trim(s)[0]) && !IsJsSpace(Trim(s)[|Trim(s)| - 1]))
  {
    var a := TrimStart(s);
    TrimStartSpec(s);
    TrimEndSpec(a);
    var r := TrimEnd(a);
    i := |s| - |a|;
    assert s[|s| - |a|..][..|r|] == s[|s| - |a|..|s| - |a| + |r|];
    if |r| > 0 {
      assert r[0] == a[0];
    }
  }

  /** trim() is idempotent. */
  lemma TrimIdempotent(s: string)
    ensures Trim(Trim(s)) == Trim(s)
  {
    var r := Trim(s);
    var _ := TrimIsTrimmed(s);
    assert TrimStart(r) == r;
    assert TrimEnd(r) == r;
  }

  lemma {:induction false} TrimStartSpaces(lead: string, x: string)
    requires forall k :: 0 <= k < |lead| ==> IsJsSpace(lead[k])
    ensures TrimStart(lead + x) == TrimStart(x)
    decreases |lead|
  {
    if |lead| > 0 {
      assert (lead + x)[1..] == lead[1..] + x;
      TrimStartSpaces(lead[1..], x);
    } else {
      assert lead + x == x;
    }
  }

  lemma {:induction false} TrimEndSpaces(x: string, trail: string)
    requires forall k :: 0 <= k < |trail| ==> IsJsSpace(trail[k])
    ensures TrimEnd(x + trail) == TrimEnd(x)
    decreases |trail|
  {
    if |trail| > 0 {
      var t := trail[..|trail| - 1];
      assert (x + trail)[..|x + trail| - 1] == x + t;
      TrimEndSpaces(x, t);
    } else {
      assert x + trail == x;
    }
  }

  /** A trimmed string padded with white space trims back to itself. */
  lemma TrimPadded(lead: string, n: string, trail: string)
    requires forall k :: 0 <= k < |lead| ==> IsJsSpace(lead[k])
    requires forall k :: 0 <= k < |trail| ==> IsJsSpace(trail[k])
    requires Trim(n) == n
    ensures Trim(lead + n + trail) == n
  {
    assert lead + n + trail == lead + (n + trail);
    TrimStartSpaces(lead, n + trail);
    if |n| > 0 {
      var _ := TrimIsTrimmed(n);
      assert (n + trail)[0] == n[0];
      assert TrimStart(n) == n;
      TrimEndSpaces(n, trail);
    } else {
      assert n + trail == trail + "";
      TrimStartSpaces(trail, "");
    }
  }

  // ------------------------------------------------------------------
  // split(c) and join(sep)

  function Join(parts: seq<string>, sep: string): (r: string)
  {
    if |parts| == 0 then ""
    else if |parts| == 1 then parts[0]
    else parts[0] + sep + Join(parts[1..], sep)
  }

  /** s.split(c) for a one-character separator: never empty, no piece holds c, and join(c) undoes it. */
  function Split(s: string, c: char): (r: seq<string>)
    ensures |r| >= 1
    ensures forall k :: 0 <= k < |r| ==> c !in r[k]
    ensures Join(r, [c]) == s
  {
    if |s| == 0 then [""]
    else
      var rest := Split(s[1..], c);
      if s[0] == c then
        assert Join([""] + rest, [c]) == "" + [c] + Join(rest, [c]);
        [""] + rest
      else
        var r := [[s[0]] + rest[0]] + rest[1..];
        assert r[1..] == rest[1..];
        assert Join(r, [c]) == [s[0]] + Join(rest, [c]);
        r
  }

  /** A character in neither the pieces nor the separator is not in their join. */
  lemma {:induction false} JoinAvoids(parts: seq<string>, sep: string, c: char)
    requires c !in sep && forall k :: 0 <= k < |parts| ==> c !in parts[k]
    ensures c !in Join(parts, sep)
    decreases |parts|
  {
    if |parts| > 1 {
      JoinAvoids(parts[1..], sep, c);
    }
  }

  /** Splitting a join on a separator that no piece contains gives the pieces back. */
  lemma {:induction false} SplitJoin(parts: seq<string>, c: char)
    requires |parts| >= 1
    requires forall k :: 0 <= k < |parts| ==> c !in parts[k]
    ensures Split(Join(parts, [c]), c) == parts
    decreases |parts|
  {
    SplitNoSep(parts[0], c);
    if |parts| > 1 {
      SplitJoin(parts[1..], c);
      SplitConcat(parts[0], Join(parts[1..], [c]), c);
      assert parts == [parts[0]] + parts[1..];
    }
  }

  lemma {:induction false} SplitNoSep(s: string, c: char)
    requires c !in s
    ensures Split(s, c) == [s]
    decreases |s|
  {
    if |s| > 0 {
      assert forall x :: x in s[1..] ==> x in s;
      SplitNoSep(s[1..], c);
      assert [s[0]] + s[1..] == s;
    }
  }

  /** Splitting at a separator splits the two sides independently. */
  lemma {:induction false} SplitConcat(x: string, y: string, c: char)
    ensures Split(x + [c] + y, c) == Split(x, c) + Split(y, c)
    decreases |x|
  {
    var s := x + [c] + y;
    if |x| == 0 {
      assert s == [c] + y && s[1..] == y;
    } else {
      assert s[0] == x[0] && s[1..] == x[1..] + [c] + y;
      SplitConcat(x[1..], y, c);
      if x[0] != c {
        SplitConsGlue(Split(x[1..], c), Split(y, c), x[0]);
      }
    }
  }

  lemma SplitConsGlue(a: seq<string>, b: seq<string>, ch: char)
    requires |a| >= 1
    ensures [[ch] + (a + b)[0]] + (a + b)[1..] == ([[ch] + a[0]] + a[1..]) + b
  {
    assert (a + b)[0] == a[0] && (a + b)[1..] == a[1..] + b;
  }

  /** s.split("\n") */
  function Lines(s: string): (r: seq<string>)
    ensures |r| >= 1
  {
    Split(s, '\n')
  }

  /** Remove one trailing carriage return. */
  function DropCr(s: string): string
  {
    if |s| > 0 && s[|s| - 1] == '\r' then s[..|s| - 1] else s
  }

  /**
   * s.split(/\r?\n/): every piece but the last loses the carriage return that
   * stood before its newline.
   */
  function SplitCrLf(s: string): (r: seq<string>)
    ensures |r| == |Lines(s)|
  {
    var ls := Lines(s);
    seq(|ls|, k requires 0 <= k < |ls| => if k < |ls| - 1 then DropCr(ls[k]) else ls[k])
  }

  /** Once trimmed, /\r?\n/ pieces and "\n" pieces are the same lines. */
  lemma TrimDropCr(s: string)
    ensures Trim(DropCr(s)) == Trim(s)
  {
    if |s| > 0 && s[|s| - 1] == '\r' {
      var t := s[..|s| - 1];
      assert s == t + ['\r'];
      TrimStartSnoc(t, '\r');
      if TrimStart(t) != "" {
        var a := TrimStart(t);
        assert TrimStart(s) == a + ['\r'];
        assert (a + ['\r'])[..|a|] == a;
      }
    }
  }

  lemma {:induction false} TrimStartSnoc(t: string, c: char)
    ensures TrimStart(t + [c]) == if TrimStart(t) == "" then TrimStart([c]) else TrimStart(t) + [c]
    decreases |t|
  {
    if |t| == 0 {
      assert t + [c] == [c];
    } else {
      assert (t + [c])[1..] == t[1..] + [c];
      if IsJsSpace(t[0]) { TrimStartSnoc(t[1..], c); }
    }
  }

  lemma TrimmedCrLfLines(s: string)
    ensures forall k :: 0 <= k < |SplitCrLf(s)| ==> Trim(SplitCrLf(s)[k]) == Trim(Lines(s)[k])
  {
    forall k | 0 <= k < |SplitCrLf(s)| ensures Trim(SplitCrLf(s)[k]) == Trim(Lines(s)[k]) {
      TrimDropCr(Lines(s)[k]);
    }
  }

  // ------------------------------------------------------------------
  // Sequences: map, filter, first-seen de-duplication

  function Map<T, U>(xs: seq<T>, f: T -> U): (r: seq<U>)
    ensures |r| == |xs| && forall k :: 0 <= k < |xs| ==> r[k] == f(xs[k])
  {
    if |xs| == 0 then [] else [f(xs[0])] + Map(xs[1..], f)
  }

  function Filter<T(!new)>(xs: seq<T>, p: T -> bool): (r: seq<T>)
    ensures |r| <= |xs|
    ensures forall x :: x in r <==> x in xs && p(x)
  {
    if |xs| == 0 then []
    else if p(xs[0]) then [xs[0]] + Filter(xs[1..], p)
    else Filter(xs[1..], p)
  }

  lemma MapAppend<T, U>(xs: seq<T>, ys: seq<T>, f: T -> U)
    ensures Map(xs + ys, f) == Map(xs, f) + Map(ys, f)
  {
  }

  /** s is t with some elements left out and the others in their order. */
  predicate IsSubsequence<T(==)>(s: seq<T>, t: seq<T>)
    decreases |t|
  {
    if |s| == 0 then true
    else if |t| == 0 then false
    else if s[0] == t[0] then IsSubsequence(s[1..], t[1..])
    else IsSubsequence(s, t[1..])
  }

  /** `.filter` keeps its elements in order... */
  lemma {:induction false} FilterSubsequence<T(!new)>(xs: seq<T>, p: T -> bool)
    ensures IsSubsequence(Filter(xs, p), xs)
    decreases |xs|
  {
    if |xs| > 0 {
      FilterSubsequence(xs[1..], p);
      var r := Filter(xs[1..], p);
      if !p(xs[0]) && |r| > 0 {
        assert r[0] in r;
      }
    }
  }

  /** ...and every occurrence of each element that passes, repeats included. */
  lemma {:induction false} FilterCounts<T(!new)>(xs: seq<T>, p: T -> bool)
    ensures forall x :: multiset(Filter(xs, p))[x] == if p(x) then multiset(xs)[x] else 0
    decreases |xs|
  {
    if |xs| > 0 {
      FilterCounts(xs[1..], p);
      assert xs == [xs[0]] + xs[1..];
    }
  }

  lemma FilterSingleton<T(!new)>(x: T, p: T -> bool)
    ensures Filter([x], p) == if p(x) then [x] else []
  {
    assert [x][1..] == [];
  }

  /** Filtering keeps a list free of repetitions. */
  lemma {:induction false} FilterNoDup<T(!new)>(xs: seq<T>, p: T -> bool)
    requires NoDup(xs)
    ensures NoDup(Filter(xs, p))
    decreases |xs|
  {
    if |xs| > 0 {
      assert NoDup(xs[1..]) by {
        forall i, j | 0 <= i < j < |xs[1..]| ensures xs[1..][i] != xs[1..][j] {
          assert xs[1..][i] == xs[i + 1] && xs[1..][j] == xs[j + 1];
        }
      }
      FilterNoDup(xs[1..], p);
      assert xs[0] !in xs[1..];
    }
  }

  lemma {:induction false} FilterAppend<T(!new)>(xs: seq<T>, ys: seq<T>, p: T -> bool)
    ensures Filter(xs + ys, p) == Filter(xs, p) + Filter(ys, p)
    decreases |xs|
  {
    if |xs| > 0 {
      assert (xs + ys)[1..] == xs[1..] + ys;
      FilterAppend(xs[1..], ys, p);
    } else {
      assert xs + ys == ys;
    }
  }

  /** The trimmed, non-empty members of a list of lines (`.map(l => l.trim()).filter(Boolean)`). */
  function TrimmedNonEmpty(lines: seq<string>): (r: seq<string>)
    ensures forall k :: 0 <= k < |r| ==> r[k] != ""
  {
    if |lines| == 0 then []
    else (if Trim(lines[0]) == "" then [] else [Trim(lines[0])]) + TrimmedNonEmpty(lines[1..])
  }

  lemma {:induction false} TrimmedNonEmptyAreTrimmed(lines: seq<string>)
    ensures forall k :: 0 <= k < |TrimmedNonEmpty(lines)| ==> Trim(TrimmedNonEmpty(lines)[k]) == TrimmedNonEmpty(lines)[k]
  {
    if |lines| > 0 {
      TrimmedNonEmptyAreTrimmed(lines[1..]);
      TrimIdempotent(lines[0]);
    }
  }

  lemma {:induction false} TrimmedNonEmptyAppend(xs: seq<string>, ys: seq<string>)
    ensures TrimmedNonEmpty(xs + ys) == TrimmedNonEmpty(xs) + TrimmedNonEmpty(ys)
    decreases |xs|
  {
    if |xs| > 0 {
      assert (xs + ys)[0] == xs[0];
      assert (xs + ys)[1..] == xs[1..] + ys;
      var h := if Trim(xs[0]) == "" then [] else [Trim(xs[0])];
      assert TrimmedNonEmpty(xs + ys) == h + TrimmedNonEmpty(xs[1..] + ys);
      TrimmedNonEmptyAppend(xs[1..], ys);
      assert h + (TrimmedNonEmpty(xs[1..]) + TrimmedNonEmpty(ys)) == (h + TrimmedNonEmpty(xs[1..])) + TrimmedNonEmpty(ys);
    } else {
      assert xs + ys == ys;
    }
  }

  /** One more line adds its trim exactly when the trim is non-empty. */
  lemma TrimmedSnoc(xs: seq<string>, i: nat)
    requires i < |xs|
    ensures TrimmedNonEmpty(xs[..i + 1]) == TrimmedNonEmpty(xs[..i]) + (if Trim(xs[i]) == "" then [] else [Trim(xs[i])])
  {
    assert xs[..i + 1] == xs[..i] + [xs[i]];
    TrimmedNonEmptyAppend(xs[..i], [xs[i]]);
    assert [xs[i]][1..] == [];
  }

  predicate NoDup<T(==)>(xs: seq<T>)
  {
    forall i, j :: 0 <= i < j < |xs| ==> xs[i] != xs[j]
  }

  /**
   * Array.from(new Set(xs)): each distinct element once, at the place of its
   * first occurrence.
   */
  function Distinct<T(==)>(xs: seq<T>): seq<T>
    decreases |xs|
  {
    if |xs| == 0 then []
    else
      var d := Distinct(xs[..|xs| - 1]);
      if xs[|xs| - 1] in d then d else d + [xs[|xs| - 1]]
  }

  /** The Set keeps exactly the elements of xs. */
  lemma {:induction false} DistinctMembers<T>(xs: seq<T>)
    ensures forall x :: x in Distinct(xs) <==> x in xs
    decreases |xs|
  {
    if |xs| > 0 {
      DistinctMembers(xs[..|xs| - 1]);
      assert xs == xs[..|xs| - 1] + [xs[|xs| - 1]];
    }
  }

  /** The Set holds each element once. */
  lemma {:induction false} DistinctNoDup<T>(xs: seq<T>)
    ensures NoDup(Distinct(xs))
    decreases |xs|
  {
    if |xs| > 0 {
      DistinctNoDup(xs[..|xs| - 1]);
      DistinctMembers(xs[..|xs| - 1]);
    }
  }

  lemma {:induction false} DistinctOfNoDup<T>(xs: seq<T>)
    requires NoDup(xs)
    ensures Distinct(xs) == xs
    decreases |xs|
  {
    if |xs| > 0 {
      DistinctOfNoDup(xs[..|xs| - 1]);
      assert xs[|xs| - 1] !in xs[..|xs| - 1];
    }
  }

  /** Elements of ys that do not occur in xs, in order. */
  function Without(ys: seq<string>, xs: seq<string>): seq<string>
    decreases |ys|
  {
    if |ys| == 0 then []
    else
      var w := Without(ys[..|ys| - 1], xs);
      if ys[|ys| - 1] in xs then w else w + [ys[|ys| - 1]]
  }

  lemma {:induction false} WithoutMembers(ys: seq<string>, xs: seq<string>)
    ensures forall y :: y in Without(ys, xs) <==> y in ys && y !in xs
    decreases |ys|
  {
    if |ys| > 0 {
      WithoutMembers(ys[..|ys| - 1], xs);
      assert ys == ys[..|ys| - 1] + [ys[|ys| - 1]];
    }
  }

  /** De-duplicating a concatenation keeps the first part's distinct elements, then the new ones of the second. */
  lemma {:induction false} DistinctAppend(xs: seq<string>, ys: seq<string>)
    ensures Distinct(xs + ys) == Distinct(xs) + Distinct(Without(ys, xs))
    decreases |ys|
  {
    if |ys| == 0 {
      assert xs + ys == xs;
    } else {
      var ys' := ys[..|ys| - 1];
      var y := ys[|ys| - 1];
      assert ys == ys' + [y];
      DistinctAppend(xs, ys');
      DistinctAppendStep(xs, ys', y);
    }
  }

  lemma DistinctAppendStep(xs: seq<string>, ys: seq<string>, y: string)
    requires Distinct(xs + ys) == Distinct(xs) + Distinct(Without(ys, xs))
    ensures Distinct(xs + (ys + [y])) == Distinct(xs) + Distinct(Without(ys + [y], xs))
  {
    var X := xs + ys;
    var W := Without(ys, xs);
    assert xs + (ys + [y]) == X + [y];
    DistinctSnoc(X, y);
    WithoutSnoc(ys, y, xs);
    if y !in xs {
      WithoutMembers(ys, xs);
      DistinctSnoc(W, y);
      Glue(Distinct(xs), Distinct(W), y, y in W);
    }
  }

  lemma Glue(A: seq<string>, B: seq<string>, y: string, c: bool)
    ensures (if c then A + B else (A + B) + [y]) == A + (if c then B else B + [y])
  {
    if !c { assert (A + B) + [y] == A + (B + [y]); }
  }

  lemma WithoutSnoc(ys: seq<string>, y: string, xs: seq<string>)
    ensures Without(ys + [y], xs) == if y in xs then Without(ys, xs) else Without(ys, xs) + [y]
  {
    assert (ys + [y])[..|ys|] == ys;
    assert (ys + [y])[|ys|] == y;
  }

  lemma DistinctSnoc<T>(zs: seq<T>, y: T)
    ensures Distinct(zs + [y]) == if y in zs then Distinct(zs) else Distinct(zs) + [y]
  {
    assert (zs + [y])[..|zs|] == zs;
    assert (zs + [y])[|zs|] == y;
    DistinctMembers(zs);
  }

  /** Index of the first occurrence, as Array.prototype.indexOf. */
  function IndexOf<T(==)>(xs: seq<T>, x: T): (r: nat)
    requires x in xs
    ensures r < |xs| && xs[r] == x && x !in xs[..r]
  {
    if xs[0] == x then 0 else
      var k := IndexOf(xs[1..], x);
      assert xs[1..][..k] == xs[1..k + 1];
      k + 1
  }

  /** Only one index is the first occurrence of x. */
  lemma IndexOfUnique<T>(xs: seq<T>, x: T, r: nat)
    requires r < |xs| && xs[r] == x && x !in xs[..r]
    ensures IndexOf(xs, x) == r
  {
    var q := IndexOf(xs, x);
  }

  /** Extending a sequence does not move the first occurrence of an element it already has. */
  lemma IndexOfExtend<T>(xs: seq<T>, ys: seq<T>, x: T)
    requires x in xs
    ensures IndexOf(xs + ys, x) == IndexOf(xs, x)
  {
    var r := IndexOf(xs, x);
    assert (xs + ys)[..r] == xs[..r];
    IndexOfUnique(xs + ys, x, r);
  }

  /** The elements of r are elements of xs, listed in the order of their first occurrence in xs. */
  predicate FirstSeenOrder<T(==)>(r: seq<T>, xs: seq<T>)
  {
    (forall k :: 0 <= k < |r| ==> r[k] in xs)
    && forall i, j :: 0 <= i < j < |r| && r[i] in xs && r[j] in xs ==> IndexOf(xs, r[i]) < IndexOf(xs, r[j])
  }

  /** new Set(xs) iterates in first-insertion order. */
  lemma {:induction false} DistinctFirstSeen<T>(xs: seq<T>)
    ensures FirstSeenOrder(Distinct(xs), xs)
    decreases |xs|
  {
    if |xs| > 0 {
      var init := xs[..|xs| - 1];
      var x := xs[|xs| - 1];
      assert xs == init + [x];
      DistinctFirstSeen(init);
      DistinctMembers(init);
      var d := Distinct(init);
      forall k | 0 <= k < |d| ensures IndexOf(xs, d[k]) == IndexOf(init, d[k]) {
        IndexOfExtend(init, [x], d[k]);
      }
      if x !in d {
        assert x !in init;
        IndexOfUnique(xs, x, |xs| - 1);
        var r := d + [x];
        forall i, j | 0 <= i < j < |r| && r[i] in xs && r[j] in xs
          ensures IndexOf(xs, r[i]) < IndexOf(xs, r[j])
        {
          if j < |d| {
            assert r[i] == d[i] && r[j] == d[j];
          } else {
            assert r[i] == d[i] && r[j] == x;
            assert IndexOf(init, d[i]) < |init|;
          }
        }
      }
    }
  }

  /** Filtering keeps the relative order. */
  lemma {:induction false} FilterFirstSeen<T(!new)>(ys: seq<T>, p: T -> bool, xs: seq<T>)
    requires FirstSeenOrder(ys, xs)
    ensures FirstSeenOrder(Filter(ys, p), xs)
    decreases |ys|
  {
    if |ys| > 0 {
      var tail := ys[1..];
      assert FirstSeenOrder(tail, xs) by {
        forall i, j | 0 <= i < j < |tail| && tail[i] in xs && tail[j] in xs
          ensures IndexOf(xs, tail[i]) < IndexOf(xs, tail[j])
        {
          assert tail[i] == ys[i + 1] && tail[j] == ys[j + 1];
        }
      }
      FilterFirstSeen(tail, p, xs);
      if p(ys[0]) {
        var f := Filter(tail, p);
        var r := [ys[0]] + f;
        forall i, j | 0 <= i < j < |r| && r[i] in xs && r[j] in xs
          ensures IndexOf(xs, r[i]) < IndexOf(xs, r[j])
        {
          if i > 0 {
            assert r[i] == f[i - 1] && r[j] == f[j - 1];
          } else {
            assert r[j] == f[j - 1] && f[j - 1] in f;
            var m :| 1 <= m < |ys| && ys[m] == r[j];
            assert ys[m] == tail[m - 1];
          }
        }
      }
    }
  }

  /** `xs.filter((x, i) => xs.indexOf(x) === i)` over the first n elements. */
  function FirstOccurrences<T(==)>(xs: seq<T>, n: nat): seq<T>
    requires n <= |xs|
  {
    if n == 0 then []
    else FirstOccurrences(xs, n - 1) + (if IndexOf(xs, xs[n - 1]) == n - 1 then [xs[n - 1]] else [])
  }

  /** The indexOf filter and the Set round trip agree. */
  lemma {:induction false} FirstOccurrencesIsDistinct(xs: seq<string>, n: nat)
    requires n <= |xs|
    ensures FirstOccurrences(xs, n) == Distinct(xs[..n])
  {
    if n > 0 {
      FirstOccurrencesIsDistinct(xs, n - 1);
      DistinctMembers(xs[..n - 1]);
      assert xs[..n][..n - 1] == xs[..n - 1];
      var x := xs[n - 1];
      if IndexOf(xs, x) == n - 1 {
        assert x !in xs[..n - 1];
      } else {
        var i := IndexOf(xs, x);
        assert i < n - 1;
        assert xs[..n - 1][i] == x;
      }
    }
  }

  // ------------------------------------------------------------------
  // De-duplication by a key, first one wins

  /**
   * The elements whose key no earlier element has: both `filter` over a
   * `seen` Set of keys and `filter((h, i, arr) => arr.findIndex(x => key(x) === key(h)) === i)`.
   */
  function DedupBy<T, K(==)>(xs: seq<T>, key: T -> K): seq<T>
    decreases |xs|
  {
    if |xs| == 0 then []
    else
      var init := xs[..|xs| - 1];
      if key(xs[|xs| - 1]) in Map(init, key) then DedupBy(init, key)
      else DedupBy(init, key) + [xs[|xs| - 1]]
  }

  /** The survivors' keys are the distinct keys, in first-seen order. */
  lemma {:induction false} DedupByKeys<T, K>(xs: seq<T>, key: T -> K)
    ensures Map(DedupBy(xs, key), key) == Distinct(Map(xs, key))
    decreases |xs|
  {
    if |xs| > 0 {
      var init := xs[..|xs| - 1];
      var x := xs[|xs| - 1];
      DedupByKeys(init, key);
      assert Map(xs, key) == Map(init, key) + [key(x)];
      DistinctSnoc(Map(init, key), key(x));
      var d := DedupBy(init, key);
      if key(x) !in Map(init, key) {
        assert Map(d + [x], key) == Map(d, key) + [key(x)];
      }
    }
  }

  /** No two survivors share a key. */
  lemma DedupByNoDup<T, K>(xs: seq<T>, key: T -> K)
    ensures NoDup(Map(DedupBy(xs, key), key))
  {
    DedupByKeys(xs, key);
    DistinctNoDup(Map(xs, key));
  }

  /** Every survivor is an element of xs that no earlier element shares its key with. */
  lemma {:induction false} DedupByFirst<T, K>(xs: seq<T>, key: T -> K)
    ensures forall y :: y in DedupBy(xs, key) ==>
              exists i :: 0 <= i < |xs| && xs[i] == y && key(y) !in Map(xs[..i], key)
    decreases |xs|
  {
    if |xs| > 0 {
      var init := xs[..|xs| - 1];
      DedupByFirst(init, key);
      forall y | y in DedupBy(xs, key)
        ensures exists i :: 0 <= i < |xs| && xs[i] == y && key(y) !in Map(xs[..i], key)
      {
        if y in DedupBy(init, key) {
          var i :| 0 <= i < |init| && init[i] == y && key(y) !in Map(init[..i], key);
          assert xs[..i] == init[..i];
        } else {
          assert xs[..|xs| - 1] == init;
        }
      }
    }
  }

  /** Every key of xs survives. */
  lemma DedupByCovers<T, K>(xs: seq<T>, key: T -> K, k: nat)
    requires k < |xs|
    ensures exists y :: y in DedupBy(xs, key) && key(y) == key(xs[k])
  {
    var m := Map(xs, key);
    var d := DedupBy(xs, key);
    DedupByKeys(xs, key);
    DistinctMembers(m);
    assert m[k] == key(xs[k]);
    var ks := Map(d, key);
    assert key(xs[k]) in m;
    assert key(xs[k]) in Distinct(m);
    assert ks == Distinct(m);
    var j := IndexOf(ks, key(xs[k]));
    assert d[j] in d && key(d[j]) == key(xs[k]);
  }

  /** With distinct keys nothing is dropped. */
  lemma {:induction false} DedupByOfDistinctKeys<T, K>(xs: seq<T>, key: T -> K)
    requires NoDup(Map(xs, key))
    ensures DedupBy(xs, key) == xs
    decreases |xs|
  {
    if |xs| > 0 {
      var init := xs[..|xs| - 1];
      var m := Map(xs, key);
      assert Map(init, key) == m[..|xs| - 1];
      NoDupLast(m);
      DedupByOfDistinctKeys(init, key);
      assert key(xs[|xs| - 1]) == m[|xs| - 1];
      assert xs == init + [xs[|xs| - 1]];
    }
  }

  /** `Array.prototype.findIndex`: the first index whose element satisfies p. */
  function FindIndex<T>(xs: seq<T>, p: T -> bool): (r: Option<nat>)
    ensures r.Some? ==> r.value < |xs| && p(xs[r.value]) && forall j :: 0 <= j < r.value ==> !p(xs[j])
    ensures r.None? ==> forall j :: 0 <= j < |xs| ==> !p(xs[j])
  {
    if |xs| == 0 then None
    else if p(xs[0]) then Some(0)
    else match FindIndex(xs[1..], p)
      case None => None
      case Some(i) => Some(i + 1)
  }

  /** Without repeats, the prefix has none either and the last element is not in it. */
  lemma NoDupLast<T>(m: seq<T>)
    requires |m| > 0 && NoDup(m)
    ensures NoDup(m[..|m| - 1]) && m[|m| - 1] !in m[..|m| - 1]
  {
  }

  // ------------------------------------------------------------------
  // The default sort order on strings (code-unit lexicographic)

  predicate Less(a: string, b: string)
    decreases |a|
  {
    |b| > 0 && (|a| == 0 || a[0] < b[0] || (a[0] == b[0] && Less(a[1..], b[1..])))
  }

  predicate LessEq(a: string, b: string)
  {
    a == b || Less(a, b)
  }

  lemma {:induction false} LessIrreflexive(a: string)
    ensures !Less(a, a)
    decreases |a|
  {
    if |a| > 0 { LessIrreflexive(a[1..]); }
  }

  lemma {:induction false} LessTransitive(a: string, b: string, c: string)
    requires Less(a, b) && Less(b, c)
    ensures Less(a, c)
    decreases |a|
  {
    if |a| > 0 && a[0] == b[0] && b[0] == c[0] {
      LessTransitive(a[1..], b[1..], c[1..]);
    }
  }

  lemma {:induction false} LessTotal(a: string, b: string)
    ensures a == b || Less(a, b) || Less(b, a)
    decreases |a|
  {
    if |a| > 0 && |b| > 0 && a[0] == b[0] {
      LessTotal(a[1..], b[1..]);
      if a[1..] == b[1..] {
        assert a == [a[0]] + a[1..] && b == [b[0]] + b[1..];
      }
    }
  }

  lemma LessAsymmetric(a: string, b: string)
    requires Less(a, b)
    ensures !Less(b, a)
  {
    if Less(b, a) {
      LessTransitive(a, b, a);
      LessIrreflexive(a);
    }
  }

  /** Each line is at most its successor in the default sort order. */
  predicate Sorted(xs: seq<string>)
  {
    forall i :: 0 < i < |xs| ==> LessEq(xs[i - 1], xs[i])
  }

  /** The head of a sorted list is at most every member. */
  lemma {:induction false} SortedHead(xs: seq<string>, j: nat)
    requires Sorted(xs) && j < |xs|
    ensures LessEq(xs[0], xs[j])
  {
    if j > 0 {
      SortedHead(xs, j - 1);
      if xs[0] != xs[j - 1] && xs[j - 1] != xs[j] { LessTransitive(xs[0], xs[j - 1], xs[j]); }
    }
  }

  function Insert(x: string, xs: seq<string>): (r: seq<string>)
    requires Sorted(xs)
    ensures |r| == |xs| + 1 && (r[0] == x || (|xs| > 0 && r[0] == xs[0]))
    ensures Sorted(r) && multiset(r) == multiset(xs) + multiset{x}
  {
    if |xs| == 0 then [x]
    else if LessEq(x, xs[0]) then [x] + xs
    else
      LessTotal(x, xs[0]);
      assert xs == [xs[0]] + xs[1..];
      [xs[0]] + Insert(x, xs[1..])
  }

  /** `.sort()` with the default comparator. */
  function Sort(xs: seq<string>): (r: seq<string>)
    ensures Sorted(r) && multiset(r) == multiset(xs)
  {
    if |xs| == 0 then []
    else
      assert xs == [xs[0]] + xs[1..];
      Insert(xs[0], Sort(xs[1..]))
  }

  lemma {:induction false} InsertNoDup(x: string, xs: seq<string>)
    requires Sorted(xs) && NoDup(xs) && x !in xs
    ensures NoDup(Insert(x, xs))
    decreases |xs|
  {
    if |xs| > 0 && !LessEq(x, xs[0]) {
      assert Sorted(xs[1..]) && NoDup(xs[1..]) by {
        forall i | 0 < i < |xs[1..]| ensures LessEq(xs[1..][i - 1], xs[1..][i]) {
          assert xs[1..][i - 1] == xs[i] && xs[1..][i] == xs[i + 1];
        }
      }
      InsertNoDup(x, xs[1..]);
      var r := Insert(x, xs[1..]);
      assert xs[0] !in multiset(r);
    }
  }

  /** Sorting keeps a list free of repetitions. */
  lemma {:induction false} SortNoDup(xs: seq<string>)
    requires NoDup(xs)
    ensures NoDup(Sort(xs))
    decreases |xs|
  {
    if |xs| > 0 {
      assert NoDup(xs[1..]) by {
        forall i, j | 0 <= i < j < |xs[1..]| ensures xs[1..][i] != xs[1..][j] {
          assert xs[1..][i] == xs[i + 1] && xs[1..][j] == xs[j + 1];
        }
      }
      SortNoDup(xs[1..]);
      assert xs[0] !in multiset(Sort(xs[1..]));
      InsertNoDup(xs[0], Sort(xs[1..]));
    }
  }

  /** Two sorted orderings of the same multiset are the same sequence: sort ignores input order. */
  lemma {:induction false} SortedUnique(a: seq<string>, b: seq<string>)
    requires Sorted(a) && Sorted(b) && multiset(a) == multiset(b)
    ensures a == b
    decreases |a|
  {
    if |a| > 0 {
      SortedSameHead(a, b);
      MultisetTail(a, b);
      SortedUnique(a[1..], b[1..]);
    }
  }

  lemma MultisetTail(a: seq<string>, b: seq<string>)
    requires multiset(a) == multiset(b) && |a| > 0 && |b| > 0 && a[0] == b[0]
    ensures multiset(a[1..]) == multiset(b[1..])
  {
    assert a == [a[0]] + a[1..] && b == [b[0]] + b[1..];
    assert multiset(a[1..]) == multiset(a) - multiset{a[0]};
    assert multiset(b[1..]) == multiset(b) - multiset{b[0]};
  }

  lemma SortedSameHead(a: seq<string>, b: seq<string>)
    requires Sorted(a) && Sorted(b) && multiset(a) == multiset(b) && |a| > 0
    ensures |b| > 0 && a[0] == b[0]
  {
    assert |b| > 0 by { assert |multiset(b)| == |multiset(a)|; }
    assert a[0] in multiset(b) && b[0] in multiset(a);
    var i :| 0 <= i < |b| && b[i] == a[0];
    var j :| 0 <= j < |a| && a[j] == b[0];
    SortedHead(a, j);
    SortedHead(b, i);
    if a[0] != b[0] { LessAsymmetric(a[0], b[0]); }
  }

  // ------------------------------------------------------------------
  // String(n) and JSON.stringify of primitives

  function DigitChar(d: nat): char
    requires d < 10
  {
    ('0' as int + d) as char
  }

  function NatToString(n: nat): (r: string)
    ensures |r| >= 1 && forall k :: 0 <= k < |r| ==> IsDigit(r[k])
  {
    if n < 10 then [DigitChar(n)] else NatToString(n / 10) + [DigitChar(n % 10)]
  }

  /** String(n) for an integer. */
  function IntToString(n: int): (r: string)
    ensures |r| >= 1
  {
    if n < 0 then "-" + NatToString(-n) else NatToString(n)
  }

  function HexDigit(d: nat): char
    requires d < 16
  {
    if d < 10 then DigitChar(d) else ('a' as int + d - 10) as char
  }

  /** JSON escape of one string character. */
  function JsonEscape(c: char): (r: string)
    ensures |r| >= 1
  {
    if c == '"' then "\\\""
    else if c == '\\' then "\\\\"
    else if c == '\n' then "\\n"
    else if c == '\r' then "\\r"
    else if c == '\t' then "\\t"
    else if c == '\U{0008}' then "\\b"
    else if c == '\U{000C}' then "\\f"
    else if (c as int) < 0x20 then "\\u00" + [HexDigit(c as int / 16), HexDigit(c as int % 16)]
    else [c]
  }

  function JsonEscapeAll(s: string): string
  {
    if |s| == 0 then "" else JsonEscape(s[0]) + JsonEscapeAll(s[1..])
  }

  /** JSON.stringify(s) for a string: a double-quoted literal. */
  function JsonString(s: string): (r: string)
    ensures |r| >= 2 && r[0] == '"' && r[|r| - 1] == '"'
  {
    "\"" + JsonEscapeAll(s) + "\""
  }
}
