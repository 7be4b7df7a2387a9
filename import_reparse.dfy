/**
 * What the unanchored scanners of mergeLinesHelper's import pass read from
 * the lines that groupImports and the import pass itself print: the path of
 * `from "p"`, the braced name list, and the bare or namespace binding.
 */
module ImportReparse {
  import opened JsText
  import opened LineScan
  import opened GroupImports

  /** A path the greedy path scanner reads back: plain and on one line. */
  predicate LinePath(p: string)
  {
    PlainPath(p) && forall k :: 0 <= k < |p| ==> NotLineTerminator(p[k])
  }

  lemma IdentifierTrimmed(n: string)
    requires Identifier(n)
    ensures Trim(n) == n
  {
    assert TrimStart(n) == n;
    assert TrimEnd(n) == n;
  }

  /** Adding members that are new and distinct appends them. */
  lemma {:induction false} AddAllFresh(members: seq<string>, ns: seq<string>)
    requires NoDup(members + ns)
    ensures AddAll(members, ns) == members + ns
    decreases |ns|
  {
    if |ns| > 0 {
      forall i | 0 <= i < |members| ensures members[i] != ns[0] {
        assert (members + ns)[i] == members[i] && (members + ns)[|members|] == ns[0];
      }
      assert members + ns == (members + [ns[0]]) + ns[1..];
      AddAllFresh(members + [ns[0]], ns[1..]);
    }
  }

  // ------------------------------------------------------------------
  // `from\s+["'](.+)["']`

  /** The characters of `h from "p";` where the path scanner looks. */
  lemma TailChars(h: string, p: string)
    ensures var s := h + FromQuote + p + QuoteSemi;
            var pos := |h| + 1;
            |s| == pos + 6 + |p| + 2 && s[pos - 1] == ' ' && s[pos..pos + 4] == FromKw && s[pos + 4] == ' '
            && s[pos + 5] == '"' && s[pos + 6 + |p|] == '"' && s[pos + 7 + |p|] == ';'
            && (forall k :: 0 <= k < |h| ==> s[k] == h[k])
            && (forall k :: 0 <= k < |p| ==> s[pos + 6 + k] == p[k])
  {
    var s := h + FromQuote + p + QuoteSemi;
    var pos := |h| + 1;
    assert s == h + FromQuote + (p + QuoteSemi);
    assert s[|h|..|h| + 7] == FromQuote;
    assert s[pos..pos + 4] == FromQuote[1..5];
  }

  /** `from "p"` at pos, with no quote before it or after it and no line break after `from`. */
  predicate GreedyParts(s: string, pos: nat, p: string)
  {
    var q := pos + 6 + |p|;
    q < |s| && p != "" && LitAt(s, pos, FromKw) && !IsJsSpace(s[pos + 3]) && s[pos + 4] == ' '
    && IsQuote(s[pos + 5]) && s[pos + 6..q] == p && IsQuote(s[q])
    && (forall k :: 0 <= k < pos + 5 ==> NotQuote(s[k]))
    && (forall k :: q < k < |s| ==> NotQuote(s[k]))
    && (forall k :: pos + 6 <= k < |s| ==> NotLineTerminator(s[k]))
  }

  /** No earlier `from` is followed by white space and a quote. */
  lemma GreedyBefore(s: string, pos: nat, p: string)
    requires GreedyParts(s, pos, p)
    ensures forall k :: 0 <= k < pos ==> GreedyPathAt(s, k).None?
  {
    forall k | 0 <= k < pos
      ensures GreedyPathAt(s, k).None?
    {
      if LitAt(s, k, FromKw) {
        var a := Spaces(s, k + 4);
        assert a <= pos + 3;
      }
    }
  }

  /** At pos, `.+` runs to the end of the line and backs off to the last quote. */
  lemma GreedyAt(s: string, pos: nat, p: string)
    requires GreedyParts(s, pos, p)
    ensures GreedyPathAt(s, pos) == Some(p)
  {
    var q := pos + 6 + |p|;
    RunOfOne(s, pos + 4, IsJsSpace);
    RunOfExact(s, pos + 6, NotLineTerminator, |s|);
    var r := LastQuote(s, pos + 7, |s|);
    assert r == Some(q);
  }

  lemma TailParts(h: string, p: string)
    requires '"' !in h && '\'' !in h
    requires LinePath(p)
    ensures GreedyParts(h + FromQuote + p + QuoteSemi, |h| + 1, p)
  {
    var s := h + FromQuote + p + QuoteSemi;
    var pos := |h| + 1;
    TailChars(h, p);
    assert forall k :: 0 <= k < pos + 5 ==> NotQuote(s[k]) by {
      forall k | 0 <= k < pos + 5 ensures NotQuote(s[k]) {
        if k < |h| { assert h[k] in h; }
      }
    }
    assert s[pos + 6..pos + 6 + |p|] == p;
  }

  /**
   * The greedy path of a line that ends in ` from "p";` after a quote-free
   * head is p: the first `from` followed by white space and a quote is the
   * one before the path, and `.+` runs to the closing quote.
   */
  lemma GreedyPathOf(h: string, p: string)
    requires '"' !in h && '\'' !in h
    requires LinePath(p)
    ensures GreedyPath(h + FromQuote + p + QuoteSemi) == Some(p)
  {
    var s := h + FromQuote + p + QuoteSemi;
    TailParts(h, p);
    GreedyBefore(s, |h| + 1, p);
    GreedyAt(s, |h| + 1, p);
    LeftmostAt(s, 0, GreedyPathAt, |h| + 1);
  }

  // ------------------------------------------------------------------
  // `import\s+\{([^}]+)\}`, `import\s+([^\s\{]+)\s+from` and the namespace binding

  /** Without a `{` there is no braced list. */
  lemma BracedNamesNone(s: string)
    requires '{' !in s
    ensures BracedNames(s) == None
  {
    forall k | 0 <= k <= |s| ensures BracedNamesAt(s, k).None? {
      if LitAt(s, k, ImportKw) {
        var a := Spaces(s, k + 6);
        if a < |s| {
          assert s[a] in s;
        }
      }
    }
    LeftmostNone(s, 0, BracedNamesAt);
  }

  /** A string that holds `import` at some position contains it. */
  lemma ImportAtContained(x: string)
    ensures forall j: nat :: LitAt(x, j, ImportKw) ==> Contains(x, ImportKw)
  {
    forall j: nat | LitAt(x, j, ImportKw) ensures Contains(x, ImportKw) {
      ContainsAt(x, ImportKw, j);
    }
  }

  lemma NamedLineBraced(names: seq<string>, p: string)
    requires forall k :: 0 <= k < |names| ==> '}' !in names[k]
    ensures BracedNames(NamedLine(names, p)) == Some(" " + Join(names, CommaSp) + " ")
  {
    var s := NamedLine(names, p);
    var J := Join(names, CommaSp);
    NamedLineLits(names, p);
    JoinAvoids(names, CommaSp, '}');
    NamedLitsParts(s, J, p);
    BracedAt(s, J, p);
  }

  lemma BracedAt(s: string, J: string, p: string)
    requires NamedParts(s, J, p)
    ensures BracedNames(s) == Some(" " + J + " ")
  {
    assert BracedNamesAt(s, 0) == Some(" " + J + " ") by {
      assert Spaces(s, 6) == 7 by { RunOfOne(s, 6, IsJsSpace); }
      assert RunOf(s, 8, NotCloseBrace) == 10 + |J| by { RunOfExact(s, 8, NotCloseBrace, 10 + |J|); }
    }
    LeftmostAt(s, 0, BracedNamesAt, 0);
  }

  lemma DefaultLineBinding(d: string, p: string)
    requires Identifier(d)
    ensures BareBinding(DefaultLine([d], p)) == Some(d)
  {
    var s := DefaultLine([d], p);
    var w := 7 + |d|;
    DefaultLineLits(d, p);
    DefaultRuns(s, d, p);
    LitAtChars(s, 7, d);
    LitAtChars(s, w, FromQuote);
    assert s[w + 1..w + 5] == FromKw;
    RunOfExact(s, 7, IsBindingChar, w);
    RunOfOne(s, w, IsJsSpace);
    LeftmostAt(s, 0, BareBindingAt, 0);
  }

  /**
   * `import` occurs in `import * as X from "p";` only at its start when
   * neither X nor p contains it: a later occurrence would lie inside X or p
   * or cross a space or a quote, and `import` has neither.
   */
  lemma StarLineImportOnlyAtStart(alias: string, p: string)
    requires !Contains(alias, ImportKw) && !Contains(p, ImportKw)
    ensures var s := StarLine(p, StarPrefix + alias);
            forall k :: 1 <= k <= |s| ==> !LitAt(s, k, ImportKw)
  {
    var s := StarLine(p, StarPrefix + alias);
    StarLineLits(alias, p);
    ImportAtContained(alias);
    ImportAtContained(p);
    ImportOnlyAtStartOf(s, alias, p);
  }

  lemma ImportOnlyAtStartOf(s: string, alias: string, p: string)
    requires StarLits(s, alias, p) && |s| == 21 + |alias| + |p|
    requires forall j: nat :: !LitAt(alias, j, ImportKw)
    requires forall j: nat :: !LitAt(p, j, ImportKw)
    ensures forall k :: 1 <= k <= |s| ==> !LitAt(s, k, ImportKw)
  {
    var w := 12 + |alias|;
    var q := w + 7 + |p|;
    LitAtChars(s, 0, ImportSp);
    LitAtChars(s, 7, StarPrefix);
    LitAtChars(s, w, FromQuote);
    LitAtChars(s, q, Quote);
    forall k | 1 <= k <= |s| ensures !LitAt(s, k, ImportKw) {
      if k + 6 > |s| {
      } else if k < 12 || (w <= k < w + 7) {
        NoImportFrom(s, k, k);
      } else if k + 6 <= w {
        NoImportWithin(s, 12, alias, k);
      } else if k < w {
        NoImportFrom(s, k, w);
      } else if k + 6 <= q {
        NoImportWithin(s, w + 7, p, k);
      } else {
        NoImportFrom(s, k, q);
      }
    }
  }

  /** `import` cannot start at k when the character at c, in its window, differs from it. */
  lemma NoImportFrom(s: string, k: nat, c: nat)
    requires k <= c < |s| && c < k + 6 && s[c] != ImportKw[c - k]
    ensures !LitAt(s, k, ImportKw)
  {
    if LitAt(s, k, ImportKw) {
      LitAtChars(s, k, ImportKw);
    }
  }

  /** `import` cannot start at k inside a copy of x at off when x does not contain it. */
  lemma NoImportWithin(s: string, off: nat, x: string, k: nat)
    requires LitAt(s, off, x) && forall j: nat :: !LitAt(x, j, ImportKw)
    requires off <= k && k + 6 <= off + |x|
    ensures !LitAt(s, k, ImportKw)
  {
    LitAtChars(s, off, x);
    var t := s[k..k + 6];
    assert forall i :: 0 <= i < 6 ==> x[k - off..k - off + 6][i] == t[i];
    assert t == x[k - off..k - off + 6];
    assert !LitAt(x, k - off, ImportKw);
  }

  /** `import * as X from "p";` has no bare binding: after `*` comes `as`, not `from`. */
  lemma StarLineNoBinding(alias: string, p: string)
    requires !Contains(alias, ImportKw) && !Contains(p, ImportKw)
    ensures BareBinding(StarLine(p, StarPrefix + alias)) == None
  {
    var s := StarLine(p, StarPrefix + alias);
    StarLineLits(alias, p);
    StarLitsParts(s, alias, p);
    StarNoBareAtStart(s, alias, p);
    StarLineImportOnlyAtStart(alias, p);
    NoBareLater(s);
  }

  lemma StarNoBareAtStart(s: string, alias: string, p: string)
    requires StarParts(s, alias, p)
    ensures BareBindingAt(s, 0).None?
  {
    RunOfOne(s, 6, IsJsSpace);
    RunOfOne(s, 7, IsBindingChar);
    RunOfOne(s, 8, IsJsSpace);
    assert s[9] == s[9..11][0] == 'a';
  }

  /** No match at the start and no later `import`: no match at all. */
  lemma NoBareLater(s: string)
    requires BareBindingAt(s, 0).None? && forall k :: 1 <= k <= |s| ==> !LitAt(s, k, ImportKw)
    ensures BareBinding(s) == None
  {
    LeftmostNone(s, 0, BareBindingAt);
  }

  /** The namespace pattern matches at the start of `import * as X from "p";`, and leftmost wins. */
  lemma StarLineBinding(alias: string, p: string)
    requires Identifier(alias)
    ensures StarBinding(StarLine(p, StarPrefix + alias)) == Some(StarPrefix + alias)
  {
    var s := StarLine(p, StarPrefix + alias);
    StarLineLits(alias, p);
    StarLitsParts(s, alias, p);
    StarBindingFirst(s, alias, p);
    LeftmostAt(s, 0, StarBindingAt, 0);
  }

  lemma StarBindingFirst(s: string, alias: string, p: string)
    requires StarParts(s, alias, p) && Identifier(alias)
    ensures StarBindingAt(s, 0) == Some(StarPrefix + alias)
  {
    var w := 12 + |alias|;
    StarRuns(s, alias, p);
    assert Spaces(s, w) == w + 1 && LitAt(s, w + 1, FromKw) by {
      LitAtChars(s, w, FromQuote);
      assert s[w + 1..w + 5] == FromKw;
      RunOfOne(s, w, IsJsSpace);
    }
  }

  // ------------------------------------------------------------------
  // The printed lines as a quote-free head followed by ` from "p";`

  lemma NamedLineTail(names: seq<string>, p: string)
    ensures NamedLine(names, p) == NamedHead(Join(names, CommaSp)) + FromQuote + p + QuoteSemi
  {
    var J := Join(names, CommaSp);
    assert ImportSp + BraceOpen + J + (CloseBrace + FromQuote) == NamedHead(J) + FromQuote;
  }

  function NamedHead(J: string): string
  {
    ImportSp + BraceOpen + J + CloseBrace
  }

  lemma NamedHeadQuoteFree(names: seq<string>)
    requires forall k :: 0 <= k < |names| ==> Identifier(names[k])
    ensures var h := NamedHead(Join(names, CommaSp));
            '"' !in h && '\'' !in h
  {
    var J := Join(names, CommaSp);
    forall k | 0 <= k < |names| ensures '"' !in names[k] && '\'' !in names[k] {
      IdentifierAvoids(names[k]);
    }
    JoinAvoids(names, CommaSp, '"');
    JoinAvoids(names, CommaSp, '\'');
    Avoids4(ImportSp, BraceOpen, J, CloseBrace, '"');
    Avoids4(ImportSp, BraceOpen, J, CloseBrace, '\'');
  }

  lemma IdentifierAvoids(n: string)
    requires Identifier(n)
    ensures '"' !in n && '\'' !in n && '{' !in n && '}' !in n && ',' !in n
  {
  }

  lemma DefaultLineTail(d: string, p: string)
    requires Identifier(d)
    ensures DefaultLine([d], p) == (ImportSp + d) + FromQuote + p + QuoteSemi
    ensures '"' !in ImportSp + d && '\'' !in ImportSp + d && '{' !in ImportSp + d
  {
    assert Join([d], CommaSp) == d;
  }

  lemma StarLineTail(alias: string, p: string)
    requires Identifier(alias)
    ensures StarLine(p, StarPrefix + alias) == (ImportSp + StarPrefix + alias) + FromQuote + p + QuoteSemi
    ensures var h := ImportSp + StarPrefix + alias;
            '"' !in h && '\'' !in h && '{' !in h
  {
  }

  /** What each scanner reads from `import * as X from "p";`. */
  lemma StarLineScans(alias: string, p: string)
    requires Identifier(alias) && LinePath(p) && '{' !in p && !Contains(alias, ImportKw) && !Contains(p, ImportKw)
    ensures var s := StarLine(p, StarPrefix + alias);
            StartsWith(s, ImportSp) && GreedyPath(s) == Some(p) && BracedNames(s) == None
            && BareBinding(s) == None && StarBinding(s) == Some(StarPrefix + alias)
  {
    var s := StarLine(p, StarPrefix + alias);
    var h := ImportSp + StarPrefix + alias;
    StarLineTail(alias, p);
    assert StartsWith(s, ImportSp) by { StarLineLits(alias, p); }
    assert GreedyPath(s) == Some(p) by { GreedyPathOf(h, p); }
    assert BracedNames(s) == None by {
      TailAvoidsBrace(h, p);
      BracedNamesNone(s);
    }
    assert BareBinding(s) == None by { StarLineNoBinding(alias, p); }
    assert StarBinding(s) == Some(StarPrefix + alias) by { StarLineBinding(alias, p); }
  }

  /** What each scanner reads from `import d from "p";`. */
  lemma DefaultLineScans(d: string, p: string)
    requires Identifier(d) && LinePath(p) && '{' !in p
    ensures var s := DefaultLine([d], p);
            StartsWith(s, ImportSp) && GreedyPath(s) == Some(p) && BracedNames(s) == None && BareBinding(s) == Some(d)
  {
    var s := DefaultLine([d], p);
    DefaultLineLits(d, p);
    DefaultLineTail(d, p);
    GreedyPathOf(ImportSp + d, p);
    TailAvoidsBrace(ImportSp + d, p);
    BracedNamesNone(s);
    DefaultLineBinding(d, p);
  }

  lemma TailAvoidsBrace(h: string, p: string)
    requires '{' !in h && '{' !in p
    ensures '{' !in h + FromQuote + p + QuoteSemi
  {
  }

  // ------------------------------------------------------------------
  // Sequence identities the proofs above use as steps; they model nothing

  lemma Avoids4(a: string, b: string, c: string, d: string, ch: char)
    requires ch !in a && ch !in b && ch !in c && ch !in d
    ensures ch !in a + b + c + d
  {
  }
}
