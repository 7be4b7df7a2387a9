/**
 * cleanImportBlock inside normalizeSkeleton: the lines of one import block
 * are joined, the first brace group of a block that has `import {` gets its
 * list rewritten as `{ a, b }`, and stray commas next to braces are dropped.
 * Only white space and commas ever change.
 */
module ImportCleanup {
  import opened JsText
  import opened LineScan

  const ListSep := ", "
  const BlockEol := "\n"

  // ------------------------------------------------------------------
  // `.split(/[\s,]+/).map(s => s.trim()).filter(Boolean)`

  /** A piece between separators: non-empty, with no white space or comma. */
  predicate IsWord(w: string)
  {
    w != "" && forall k :: 0 <= k < |w| ==> NotListSep(w[k])
  }

  /** The pieces of s: its maximal runs of characters that are neither white space nor commas. */
  function Words(s: string): seq<string>
    decreases |s|
  {
    if |s| == 0 then []
    else if IsListSep(s[0]) then Words(s[1..])
    else
      var e := RunOf(s, 0, NotListSep);
      [s[..e]] + Words(s[e..])
  }

  /** The characters of s that are neither white space nor commas. */
  function Strip(s: string): string
    decreases |s|
  {
    if |s| == 0 then ""
    else if NotListSep(s[0]) then [s[0]] + Strip(s[1..])
    else Strip(s[1..])
  }

  lemma {:induction false} StripAppend(a: string, b: string)
    ensures Strip(a + b) == Strip(a) + Strip(b)
    decreases |a|
  {
    if |a| > 0 {
      assert (a + b)[1..] == a[1..] + b;
      StripAppend(a[1..], b);
    } else {
      assert a + b == b;
    }
  }

  /** Words joined with no separator. */
  function Concat(ws: seq<string>): string
    decreases |ws|
  {
    if |ws| == 0 then "" else ws[0] + Concat(ws[1..])
  }

  lemma {:induction false} WordsAreWords(s: string)
    ensures forall k :: 0 <= k < |Words(s)| ==> IsWord(Words(s)[k])
    decreases |s|
  {
    if |s| > 0 {
      if IsListSep(s[0]) {
        WordsAreWords(s[1..]);
      } else {
        var e := RunOf(s, 0, NotListSep);
        WordsAreWords(s[e..]);
        assert forall k :: 0 <= k < e ==> s[..e][k] == s[k];
      }
    }
  }

  lemma StripAll(w: string)
    requires forall k :: 0 <= k < |w| ==> NotListSep(w[k])
    ensures Strip(w) == w
    decreases |w|
  {
    if |w| > 0 {
      assert forall k :: 0 <= k < |w[1..]| ==> w[1..][k] == w[k + 1];
      StripAll(w[1..]);
    }
  }

  lemma StripNone(w: string)
    requires forall k :: 0 <= k < |w| ==> IsListSep(w[k])
    ensures Strip(w) == ""
    decreases |w|
  {
    if |w| > 0 {
      assert forall k :: 0 <= k < |w[1..]| ==> w[1..][k] == w[k + 1];
      StripNone(w[1..]);
    }
  }

  /** The pieces hold every character that is not a separator, in order. */
  lemma {:induction false} WordsStrip(s: string)
    ensures Concat(Words(s)) == Strip(s)
    decreases |s|
  {
    if |s| > 0 {
      if IsListSep(s[0]) {
        WordsStrip(s[1..]);
      } else {
        var e := RunOf(s, 0, NotListSep);
        WordsStrip(s[e..]);
        assert s == s[..e] + s[e..];
        StripAppend(s[..e], s[e..]);
        assert forall k :: 0 <= k < e ==> s[..e][k] == s[k];
        StripAll(s[..e]);
      }
    }
  }

  /** Joining pieces with `, ` adds nothing but separators. */
  lemma {:induction false} StripJoin(ws: seq<string>)
    requires forall k :: 0 <= k < |ws| ==> IsWord(ws[k])
    ensures Strip(Join(ws, ListSep)) == Concat(ws)
    decreases |ws|
  {
    if |ws| == 1 {
      StripAll(ws[0]);
      assert Concat(ws[1..]) == "";
    } else if |ws| > 1 {
      StripJoin(ws[1..]);
      var rest := Join(ws[1..], ListSep);
      StripAppend(ws[0] + ListSep, rest);
      StripAppend(ws[0], ListSep);
      StripAll(ws[0]);
      StripNone(ListSep);
    }
  }

  /** A word read from the front of a line ends at the first separator. */
  lemma WordsCons(w: string, rest: string)
    requires IsWord(w) && (|rest| == 0 || IsListSep(rest[0]))
    ensures Words(w + rest) == [w] + Words(rest)
  {
    var s := w + rest;
    RunOfExact(s, 0, NotListSep, |w|);
    assert s[..|w|] == w && s[|w|..] == rest;
  }

  /** Splitting the `, `-joined words gives the words back. */
  lemma {:induction false} WordsOfJoin(ws: seq<string>)
    requires forall k :: 0 <= k < |ws| ==> IsWord(ws[k])
    ensures Words(Join(ws, ListSep)) == ws
    decreases |ws|
  {
    if |ws| == 1 {
      WordsCons(ws[0], "");
      assert ws[0] + "" == ws[0];
    } else if |ws| > 1 {
      var rest := Join(ws[1..], ListSep);
      WordsOfJoin(ws[1..]);
      assert Join(ws, ListSep) == ws[0] + (ListSep + rest);
      WordsCons(ws[0], ListSep + rest);
      assert (ListSep + rest)[1..] == " " + rest;
      assert (" " + rest)[1..] == rest;
    }
  }

  // ------------------------------------------------------------------
  // The first brace group

  /** `/import\s*\{/` at i. */
  predicate ImportBraceAt(s: string, i: nat)
  {
    LitAt(s, i, ImportKw) && var a := Spaces(s, i + 6); a < |s| && s[a] == '{'
  }

  /** `/import\s*\{/.test(s)`, searching from i. */
  predicate ImportBraceFrom(s: string, i: nat)
    decreases |s| - i
  {
    i + 6 <= |s| && (ImportBraceAt(s, i) || ImportBraceFrom(s, i + 1))
  }

  /** `/\{([^}]*)\}/`: the first `{`, and the first `}` after it. */
  function BraceGroup(s: string): (r: Option<(nat, nat)>)
    ensures r.Some? ==> r.value.0 < r.value.1 < |s| && s[r.value.0] == '{' && s[r.value.1] == '}'
    ensures r.Some? ==> '{' !in s[..r.value.0] && '}' !in s[r.value.0 + 1..r.value.1]
  {
    match IndexOfChar(s, '{')
    case None => None
    case Some(i) =>
      match IndexOfChar(s[i + 1..], '}')
      case None => None
      case Some(k) =>
        assert s[i + 1..][..k] == s[i + 1..i + 1 + k];
        Some((i, i + 1 + k))
  }

  /** The group's list rewritten as its pieces joined by `, `, within `{ ` and ` }`. */
  function TidyBraces(s: string): string
  {
    match BraceGroup(s)
    case None => s
    case Some((i, j)) => s[..i] + "{ " + Join(Words(s[i + 1..j]), ListSep) + " }" + s[j + 1..]
  }

  // ------------------------------------------------------------------
  // `.replace(/\{\s*,/g, '{')` and `.replace(/,\s*\}/g, ' }')`

  function DropOpenCommas(s: string, i: nat): string
    requires i <= |s|
    decreases |s| - i
  {
    if i == |s| then ""
    else match OpenCommaAt(s, i)
      case Some(e) => "{" + DropOpenCommas(s, e)
      case None => [s[i]] + DropOpenCommas(s, i + 1)
  }

  function DropCloseCommas(s: string, i: nat): string
    requires i <= |s|
    decreases |s| - i
  {
    if i == |s| then ""
    else match CloseCommaAt(s, i)
      case Some(e) => " }" + DropCloseCommas(s, e)
      case None => [s[i]] + DropCloseCommas(s, i + 1)
  }

  /** cleanImportBlock */
  function CleanImportBlock(block: seq<string>): string
  {
    var joined := Join(block, BlockEol);
    var tidy := if ImportBraceFrom(joined, 0) then TidyBraces(joined) else joined;
    var noOpen := DropOpenCommas(tidy, 0);
    DropCloseCommas(noOpen, 0)
  }

  // ------------------------------------------------------------------
  // Only separators change

  lemma StripKeep(c: char, s: string)
    requires NotListSep(c)
    ensures Strip([c] + s) == [c] + Strip(s)
  {
    assert ([c] + s)[1..] == s;
  }

  lemma StripDrop(c: char, s: string)
    requires IsListSep(c)
    ensures Strip([c] + s) == Strip(s)
  {
    assert ([c] + s)[1..] == s;
  }

  lemma StripHead(s: string, i: nat)
    requires i < |s|
    ensures Strip(s[i..]) == if NotListSep(s[i]) then [s[i]] + Strip(s[i + 1..]) else Strip(s[i + 1..])
  {
    assert s[i..] == [s[i]] + s[i + 1..];
    if NotListSep(s[i]) {
      StripKeep(s[i], s[i + 1..]);
    } else {
      StripDrop(s[i], s[i + 1..]);
    }
  }

  /** Separators up to and including a are dropped by Strip. */
  lemma StripSkip(s: string, i: nat, a: nat)
    requires i <= a < |s| && (forall k :: i <= k <= a ==> IsListSep(s[k]))
    ensures Strip(s[i..]) == Strip(s[a + 1..])
    decreases a - i
  {
    StripHead(s, i);
    if i < a {
      StripSkip(s, i + 1, a);
    }
  }

  /** Where `\{\s*,` matches at i: the end of the match. */
  function OpenCommaAt(s: string, i: nat): (r: Option<nat>)
    requires i < |s|
    ensures r.Some? ==> i + 2 <= r.value <= |s| && s[i] == '{' && s[r.value - 1] == ','
    ensures r.Some? ==> forall k :: i + 1 <= k < r.value ==> IsListSep(s[k])
  {
    var a := Spaces(s, i + 1);
    if s[i] == '{' && a < |s| && s[a] == ',' then Some(a + 1) else None
  }

  /** Where `,\s*\}` matches at i: the end of the match. */
  function CloseCommaAt(s: string, i: nat): (r: Option<nat>)
    requires i < |s|
    ensures r.Some? ==> i + 2 <= r.value <= |s| && s[i] == ',' && s[r.value - 1] == '}'
    ensures r.Some? ==> forall k :: i <= k < r.value - 1 ==> IsListSep(s[k])
  {
    var a := Spaces(s, i + 1);
    if s[i] == ',' && a < |s| && s[a] == '}' then Some(a + 1) else None
  }

  lemma StripOpenBrace(s: string, i: nat)
    requires i < |s| && s[i] == '{'
    ensures Strip(s[i..]) == "{" + Strip(s[i + 1..])
  {
    StripHead(s, i);
  }

  lemma DropOpenUnfold(s: string, i: nat, e: nat)
    requires i < |s| && OpenCommaAt(s, i) == Some(e)
    ensures DropOpenCommas(s, i) == "{" + DropOpenCommas(s, e)
  {
  }

  lemma StripOpenMatch(s: string, i: nat, e: nat)
    requires i < |s| && OpenCommaAt(s, i) == Some(e)
    ensures Strip(s[i + 1..]) == Strip(s[e..])
  {
    StripSkip(s, i + 1, e - 1);
  }

  lemma DropOpenSome(s: string, i: nat, e: nat)
    requires i < |s| && OpenCommaAt(s, i) == Some(e)
    requires Strip(DropOpenCommas(s, e)) == Strip(s[e..])
    ensures Strip(DropOpenCommas(s, i)) == Strip(s[i..])
  {
    StripOpenBrace(s, i);
    DropOpenUnfold(s, i, e);
    StripOpenMatch(s, i, e);
    StripKeep('{', DropOpenCommas(s, e));
  }

  lemma DropOpenNone(s: string, i: nat)
    requires i < |s| && OpenCommaAt(s, i).None?
    requires Strip(DropOpenCommas(s, i + 1)) == Strip(s[i + 1..])
    ensures Strip(DropOpenCommas(s, i)) == Strip(s[i..])
  {
    var rest := DropOpenCommas(s, i + 1);
    assert DropOpenCommas(s, i) == [s[i]] + rest;
    StripHead(s, i);
    if NotListSep(s[i]) {
      StripKeep(s[i], rest);
    } else {
      StripDrop(s[i], rest);
    }
  }

  lemma {:induction false} DropOpenCommasStrip(s: string, i: nat)
    requires i <= |s|
    ensures Strip(DropOpenCommas(s, i)) == Strip(s[i..])
    decreases |s| - i
  {
    if i < |s| {
      match OpenCommaAt(s, i) {
        case Some(e) =>
          DropOpenCommasStrip(s, e);
          DropOpenSome(s, i, e);
        case None =>
          DropOpenCommasStrip(s, i + 1);
          DropOpenNone(s, i);
      }
    }
  }

  lemma StripCloseBrace(rest: string)
    ensures Strip(" }" + rest) == "}" + Strip(rest)
  {
    StripKeep('}', rest);
    assert " }" + rest == [' '] + ("}" + rest);
    StripDrop(' ', "}" + rest);
  }

  lemma DropCloseUnfold(s: string, i: nat, e: nat)
    requires i < |s| && CloseCommaAt(s, i) == Some(e)
    ensures DropCloseCommas(s, i) == " }" + DropCloseCommas(s, e)
  {
  }

  lemma StripCloseMatch(s: string, i: nat, e: nat)
    requires i < |s| && CloseCommaAt(s, i) == Some(e)
    ensures Strip(s[i..]) == "}" + Strip(s[e..])
  {
    StripSkip(s, i, e - 2);
    StripHead(s, e - 1);
  }

  lemma DropCloseSome(s: string, i: nat, e: nat)
    requires i < |s| && CloseCommaAt(s, i) == Some(e)
    requires Strip(DropCloseCommas(s, e)) == Strip(s[e..])
    ensures Strip(DropCloseCommas(s, i)) == Strip(s[i..])
  {
    DropCloseUnfold(s, i, e);
    StripCloseMatch(s, i, e);
    StripCloseBrace(DropCloseCommas(s, e));
  }

  lemma DropCloseNone(s: string, i: nat)
    requires i < |s| && CloseCommaAt(s, i).None?
    requires Strip(DropCloseCommas(s, i + 1)) == Strip(s[i + 1..])
    ensures Strip(DropCloseCommas(s, i)) == Strip(s[i..])
  {
    var rest := DropCloseCommas(s, i + 1);
    assert DropCloseCommas(s, i) == [s[i]] + rest;
    StripHead(s, i);
    if NotListSep(s[i]) {
      StripKeep(s[i], rest);
    } else {
      StripDrop(s[i], rest);
    }
  }

  lemma {:induction false} DropCloseCommasStrip(s: string, i: nat)
    requires i <= |s|
    ensures Strip(DropCloseCommas(s, i)) == Strip(s[i..])
    decreases |s| - i
  {
    if i < |s| {
      match CloseCommaAt(s, i) {
        case Some(e) =>
          DropCloseCommasStrip(s, e);
          DropCloseSome(s, i, e);
        case None =>
          DropCloseCommasStrip(s, i + 1);
          DropCloseNone(s, i);
      }
    }
  }

  lemma StripFive(a: string, b: string, c: string, d: string, e: string)
    ensures Strip(a + b + c + d + e) == Strip(a) + Strip(b) + Strip(c) + Strip(d) + Strip(e)
  {
    StripAppend(a + b + c + d, e);
    StripAppend(a + b + c, d);
    StripAppend(a + b, c);
    StripAppend(a, b);
  }

  /** The tidied list keeps the list's characters other than separators. */
  lemma TidyListStrip(inner: string)
    ensures Strip(Join(Words(inner), ListSep)) == Strip(inner)
  {
    WordsAreWords(inner);
    StripJoin(Words(inner));
    WordsStrip(inner);
  }

  lemma SplitAtGroup(s: string, i: nat, j: nat)
    requires i < j < |s|
    ensures s == s[..i] + [s[i]] + s[i + 1..j] + [s[j]] + s[j + 1..]
  {
  }

  lemma TidyPiecesStrip(pre: string, inner: string, post: string)
    ensures Strip(pre + "{ " + Join(Words(inner), ListSep) + " }" + post) == Strip(pre + "{" + inner + "}" + post)
  {
    StripFive(pre, "{", inner, "}", post);
    StripFive(pre, "{ ", Join(Words(inner), ListSep), " }", post);
    TidyListStrip(inner);
    StripKeep('{', "");
    StripKeep('}', "");
    StripKeep('{', " ");
    StripDrop(' ', "}");
  }

  lemma TidyBracesStrip(s: string)
    ensures Strip(TidyBraces(s)) == Strip(s)
  {
    match BraceGroup(s) {
      case None =>
      case Some((i, j)) =>
        SplitAtGroup(s, i, j);
        TidyPiecesStrip(s[..i], s[i + 1..j], s[j + 1..]);
    }
  }

  /** cleanImportBlock changes only white space and commas: every other character stays, in order. */
  lemma CleanImportBlockStrip(block: seq<string>)
    ensures Strip(CleanImportBlock(block)) == Strip(Join(block, BlockEol))
  {
    var joined := Join(block, BlockEol);
    var tidy := if ImportBraceFrom(joined, 0) then TidyBraces(joined) else joined;
    TidyBracesStrip(joined);
    DropOpenCommasStrip(tidy, 0);
    var noOpen := DropOpenCommas(tidy, 0);
    DropCloseCommasStrip(noOpen, 0);
    assert tidy[0..] == tidy;
    assert noOpen[0..] == noOpen;
  }

  /**
   * The tidied group is `{ ` and ` }` around the pieces of the old list
   * joined by `, `, whose pieces are the old ones: tidying again changes nothing in it.
   */
  lemma TidyBracesForm(s: string)
    requires BraceGroup(s).Some?
    ensures var (i, j) := BraceGroup(s).value;
            var ws := Words(s[i + 1..j]);
            (forall k :: 0 <= k < |ws| ==> IsWord(ws[k]))
            && TidyBraces(s) == s[..i] + "{ " + Join(ws, ListSep) + " }" + s[j + 1..]
            && Words(Join(ws, ListSep)) == ws
  {
    var (i, j) := BraceGroup(s).value;
    WordsAreWords(s[i + 1..j]);
    WordsOfJoin(Words(s[i + 1..j]));
  }
}
