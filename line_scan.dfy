/**
 * Scanners for the line shapes that the fragment merger's regular
 * expressions recognise. Each scanner reads a string from a position and
 * either fails or says where the shape ends, making the same choices as the
 * regular expression it stands for: greedy runs, backtracking only where a
 * shorter run could still match, and the leftmost match for unanchored
 * patterns.
 */
module LineScan {
  import opened JsText

  const ImportKw := "import"
  const FromKw := "from"
  const AsKw := "as"
  const JestMockCall := "jest.mock("
  const FunctionKw := "function"
  const Arrow := "=>"
  /** The prefix groupImports gives a namespace binding: `* as X`. */
  const StarPrefix := "* " + AsKw + " "

  // ------------------------------------------------------------------
  // Character classes

  predicate IsQuote(c: char) { c == '\'' || c == '"' }

  /** `[^'"]` */
  predicate NotQuote(c: char) { !IsQuote(c) }

  /** `.` */
  predicate NotLineTerminator(c: char) { !IsLineTerminator(c) }

  /** `[^}]` */
  predicate NotCloseBrace(c: char) { c != '}' }

  /** `[\w$]` */
  predicate IsIdentChar(c: char) { IsWordChar(c) || c == '$' }

  /** `[^\s\{]` */
  predicate IsBindingChar(c: char) { !IsJsSpace(c) && c != '{' }

  /** `[\s,]` */
  predicate IsListSep(c: char) { IsJsSpace(c) || c == ',' }

  predicate NotListSep(c: char) { !IsListSep(c) }

  // ------------------------------------------------------------------
  // Runs and literals

  /** The end of the longest run of characters satisfying p that starts at i. */
  function RunOf(s: string, i: nat, p: char -> bool): (j: nat)
    requires i <= |s|
    ensures i <= j <= |s|
    ensures forall k :: i <= k < j ==> p(s[k])
    ensures j == |s| || !p(s[j])
    decreases |s| - i
  {
    if i < |s| && p(s[i]) then RunOf(s, i + 1, p) else i
  }

  /** A run that stops at j ends at j. */
  lemma {:induction false} RunOfExact(s: string, i: nat, p: char -> bool, j: nat)
    requires i <= j <= |s|
    requires forall k :: i <= k < j ==> p(s[k])
    requires j == |s| || !p(s[j])
    ensures RunOf(s, i, p) == j
    decreases j - i
  {
    if i < j {
      RunOfExact(s, i + 1, p, j);
    }
  }

  /** A run of one character. */
  lemma RunOfOne(s: string, i: nat, p: char -> bool)
    requires i + 1 < |s| && p(s[i]) && !p(s[i + 1])
    ensures RunOf(s, i, p) == i + 1
  {
    assert RunOf(s, i + 1, p) == i + 1;
  }

  /** `\s*` from i. */
  function Spaces(s: string, i: nat): (j: nat)
    requires i <= |s|
    ensures i <= j <= |s|
  {
    RunOf(s, i, IsJsSpace)
  }

  predicate LitAt(s: string, i: nat, p: string)
  {
    i + |p| <= |s| && s[i..i + |p|] == p
  }

  lemma LitAtCat(s: string, i: nat, a: string, b: string)
    ensures LitAt(s, i, a + b) <==> LitAt(s, i, a) && LitAt(s, i + |a|, b)
  {
    if i + |a| + |b| <= |s| {
      assert s[i..i + |a| + |b|] == s[i..i + |a|] + s[i + |a|..i + |a| + |b|];
      if s[i..i + |a| + |b|] == a + b {
        assert s[i..i + |a|] == (a + b)[..|a|] && s[i + |a|..i + |a| + |b|] == (a + b)[|a|..];
      }
    }
  }

  lemma LitAtChars(s: string, i: nat, t: string)
    requires LitAt(s, i, t)
    ensures forall k :: i <= k < i + |t| ==> s[k] == t[k - i]
  {
    forall k | i <= k < i + |t| ensures s[k] == t[k - i] {
      assert s[i..i + |t|][k - i] == s[k];
    }
  }

  lemma LitAtWhole(s: string)
    ensures LitAt(s, 0, s)
  {
    assert s[0..|s|] == s;
  }

  /** The largest q with lo <= q < hi and a quote at q. */
  function LastQuote(s: string, lo: nat, hi: nat): (r: Option<nat>)
    requires hi <= |s|
    ensures r.Some? ==> lo <= r.value < hi && IsQuote(s[r.value])
    ensures forall q :: r.Some? && r.value < q < hi ==> !IsQuote(s[q])
    ensures r.None? ==> forall q :: lo <= q < hi ==> !IsQuote(s[q])
    decreases hi
  {
    if hi <= lo then None
    else if IsQuote(s[hi - 1]) then Some(hi - 1)
    else LastQuote(s, lo, hi - 1)
  }

  /** The leftmost position from i on where `at` matches, and what it matched. */
  function Leftmost(s: string, i: nat, at: (string, nat) -> Option<string>): (r: Option<string>)
    ensures r.None? ==> forall k :: i <= k <= |s| ==> at(s, k).None?
    ensures r.Some? ==> exists k :: i <= k <= |s| && at(s, k) == r
    decreases |s| + 1 - i
  {
    if i > |s| then None
    else if at(s, i).Some? then at(s, i)
    else Leftmost(s, i + 1, at)
  }

  /** Leftmost finds the first position that matches. */
  lemma {:induction false} LeftmostAt(s: string, i: nat, at: (string, nat) -> Option<string>, j: nat)
    requires i <= j <= |s| && at(s, j).Some?
    requires forall k :: i <= k < j ==> at(s, k).None?
    ensures Leftmost(s, i, at) == at(s, j)
    decreases j - i
  {
    if i < j {
      LeftmostAt(s, i + 1, at, j);
    }
  }

  /** Leftmost finds nothing where nothing matches. */
  lemma {:induction false} LeftmostNone(s: string, i: nat, at: (string, nat) -> Option<string>)
    requires forall k :: i <= k <= |s| ==> at(s, k).None?
    ensures Leftmost(s, i, at) == None
    decreases |s| + 1 - i
  {
    if i <= |s| {
      LeftmostNone(s, i + 1, at);
    }
  }

  // ------------------------------------------------------------------
  // The shapes groupImports matches, anchored at the start of the line

  /** `\s+from\s+['"]([^'"]+)['"]` at i: the quoted path. */
  function FromClause(s: string, i: nat): (r: Option<string>)
    requires i <= |s|
  {
    var a := Spaces(s, i);
    if a == i || !LitAt(s, a, FromKw) then None
    else
      var b := Spaces(s, a + 4);
      if b == a + 4 || b >= |s| || !IsQuote(s[b]) then None
      else
        var e := RunOf(s, b + 1, NotQuote);
        if e == b + 1 || e >= |s| then None else Some(s[b + 1..e])
  }

  /** The three import shapes groupImports knows, and everything else. */
  datatype ImportShape =
    | NamedImport(inner: string, path: string)     // import { a, b } from "p"
    | DefaultImport(name: string, path: string)    // import X from "p"
    | StarImport(alias: string, path: string)      // import * as X from "p"
    | Unmatched

  /** `^import\s+\{([^}]+)\}\s+from\s+['"]([^'"]+)['"]` */
  function NamedShape(s: string): (r: ImportShape)
    ensures r.NamedImport? || r.Unmatched?
  {
    if !LitAt(s, 0, ImportKw) then Unmatched
    else
      var a := Spaces(s, 6);
      if a == 6 || a >= |s| || s[a] != '{' then Unmatched
      else
        var e := RunOf(s, a + 1, NotCloseBrace);
        if e == a + 1 || e >= |s| then Unmatched
        else match FromClause(s, e + 1)
          case None => Unmatched
          case Some(path) => NamedImport(s[a + 1..e], path)
  }

  /** `^import\s+([\w$]+)\s+from\s+['"]([^'"]+)['"]` */
  function DefaultShape(s: string): (r: ImportShape)
    ensures r.DefaultImport? || r.Unmatched?
  {
    if !LitAt(s, 0, ImportKw) then Unmatched
    else
      var a := Spaces(s, 6);
      var w := RunOf(s, a, IsIdentChar);
      if a == 6 || w == a then Unmatched
      else match FromClause(s, w)
        case None => Unmatched
        case Some(path) => DefaultImport(s[a..w], path)
  }

  /** `^import\s+\*\s+as\s+([\w$]+)\s+from\s+['"]([^'"]+)['"]` */
  function StarShape(s: string): (r: ImportShape)
    ensures r.StarImport? || r.Unmatched?
  {
    if !LitAt(s, 0, ImportKw) then Unmatched
    else
      var a := Spaces(s, 6);
      if a == 6 || a >= |s| || s[a] != '*' then Unmatched
      else
        var b := Spaces(s, a + 1);
        if b == a + 1 || !LitAt(s, b, AsKw) then Unmatched
        else
          var c := Spaces(s, b + 2);
          var w := RunOf(s, c, IsIdentChar);
          if c == b + 2 || w == c then Unmatched
          else match FromClause(s, w)
            case None => Unmatched
            case Some(path) => StarImport(s[c..w], path)
  }

  /** The shapes are tried in the order groupImports tries them. */
  function ParseImportShape(s: string): ImportShape
  {
    var n := NamedShape(s);
    if n.NamedImport? then n
    else
      var d := DefaultShape(s);
      if d.DefaultImport? then d else StarShape(s)
  }

  // ------------------------------------------------------------------
  // The `./` to `../` rewrite: `(import\s+.*\s+from\s+['"])(\.\/)`

  /**
   * A place where the rewrite can apply: a quote at q followed by `./`,
   * preceded by white space, `from`, white space, and earlier by `import`
   * followed by white space.
   * The `.*` of the pattern stops at a line terminator and this predicate
   * does not look for one: on an entry without line terminators the two
   * agree, while on an entry spanning several lines the model can rewrite
   * a path that the source leaves alone.
   */
  predicate RebaseAt(s: string, q: nat)
  {
    q < |s| && IsQuote(s[q]) && LitAt(s, q + 1, "./")
    && var w := SpacesBefore(s, q);
       w < q && w >= 5 && LitAt(s, w - 4, FromKw) && IsJsSpace(s[w - 5])
       && ImportOpensBefore(s, w - 5)
  }

  /** `import` followed by white space occurs and ends at or before n. */
  predicate ImportOpensBefore(s: string, n: nat)
    requires n <= |s|
    decreases n
  {
    n >= 7 && ((LitAt(s, n - 7, ImportKw) && IsJsSpace(s[n - 1])) || ImportOpensBefore(s, n - 1))
  }

  lemma {:induction false} ImportOpensAt(s: string, a: nat, n: nat)
    requires a + 7 <= n <= |s| && LitAt(s, a, ImportKw) && IsJsSpace(s[a + 6])
    ensures ImportOpensBefore(s, n)
    decreases n
  {
    if a + 7 < n {
      ImportOpensAt(s, a, n - 1);
    }
  }

  /** The start of the longest run of white space that ends just before q. */
  function SpacesBefore(s: string, q: nat): (w: nat)
    requires q <= |s|
    ensures w <= q
  {
    if q > 0 && IsJsSpace(s[q - 1]) then SpacesBefore(s, q - 1) else q
  }

  /** The last place below n where the rewrite can apply. */
  function LastRebase(s: string, n: nat): (r: Option<nat>)
    requires n <= |s|
    ensures r.Some? ==> r.value < n
  {
    if n == 0 then None
    else if RebaseAt(s, n - 1) then Some(n - 1)
    else LastRebase(s, n - 1)
  }

  /** No rewrite applies below n when no quote there is followed by `./`. */
  lemma {:induction false} NoRebaseBelow(s: string, n: nat)
    requires n <= |s|
    requires forall q :: 0 <= q < n && IsQuote(s[q]) ==> !LitAt(s, q + 1, "./")
    ensures LastRebase(s, n) == None
    decreases n
  {
    if n > 0 {
      assert !RebaseAt(s, n - 1);
      NoRebaseBelow(s, n - 1);
    }
  }

  /** The rewrite applies at a quote opening `./` right after `from` and one space. */
  lemma RebaseAtOf(s: string, q: nat)
    requires 6 <= q < |s| && IsQuote(s[q]) && LitAt(s, q + 1, "./")
    requires s[q - 1] == ' ' && LitAt(s, q - 5, FromKw) && s[q - 6] == ' ' && ImportOpensBefore(s, q - 6)
    ensures RebaseAt(s, q)
  {
    assert SpacesBefore(s, q - 1) == q - 1;
  }

  /**
   * `line.replace(/(import\s+.*\s+from\s+['"])(\.\/)/g, '$1../')` on a line
   * without line terminators: the greedy `.*` reaches the last place the
   * pattern can end, and no later match exists after it.
   */
  function Rebase(s: string): (r: string)
  {
    match LastRebase(s, |s|)
    case None => s
    case Some(q) => s[..q + 1] + "." + s[q + 1..]
  }

  // ------------------------------------------------------------------
  // Unanchored shapes matched by mergeLinesHelper

  /** `from\s+["'](.+)["']` at i: the greedy `.+` runs to the last quote on the line. */
  function GreedyPathAt(s: string, i: nat): Option<string>
  {
    if !LitAt(s, i, FromKw) then None
    else
      var a := Spaces(s, i + 4);
      if a == i + 4 || a >= |s| || !IsQuote(s[a]) then None
      else
        var e := RunOf(s, a + 1, NotLineTerminator);
        match LastQuote(s, a + 2, e)
        case None => None
        case Some(q) => Some(s[a + 1..q])
  }

  /** `line.match(/from\s+["'](.+)["']/)[1]` */
  function GreedyPath(s: string): Option<string>
  {
    Leftmost(s, 0, GreedyPathAt)
  }

  /** `import\s+\{([^}]+)\}` at i. */
  function BracedNamesAt(s: string, i: nat): Option<string>
  {
    if !LitAt(s, i, ImportKw) then None
    else
      var a := Spaces(s, i + 6);
      if a == i + 6 || a >= |s| || s[a] != '{' then None
      else
        var e := RunOf(s, a + 1, NotCloseBrace);
        if e == a + 1 || e >= |s| then None else Some(s[a + 1..e])
  }

  /** `line.match(/import\s+\{([^}]+)\}/)[1]` */
  function BracedNames(s: string): Option<string>
  {
    Leftmost(s, 0, BracedNamesAt)
  }

  /** `import\s+([^\s\{]+)\s+from` at i. */
  function BareBindingAt(s: string, i: nat): Option<string>
  {
    if !LitAt(s, i, ImportKw) then None
    else
      var a := Spaces(s, i + 6);
      var w := RunOf(s, a, IsBindingChar);
      var b := Spaces(s, w);
      if a == i + 6 || w == a || b == w || !LitAt(s, b, FromKw) then None
      else Some(s[a..w])
  }

  /** `line.match(/import\s+([^\s\{]+)\s+from/)[1]` */
  function BareBinding(s: string): Option<string>
  {
    Leftmost(s, 0, BareBindingAt)
  }

  /**
   * `import\s+\*\s+as\s+([\w$]+)\s+from` at i, read as the binding `* as X`:
   * the namespace form that `import\s+([^\s\{]+)\s+from` cannot match.
   */
  function StarBindingAt(s: string, i: nat): Option<string>
  {
    if !LitAt(s, i, ImportKw) then None
    else
      var a := Spaces(s, i + 6);
      if a == i + 6 || a >= |s| || s[a] != '*' then None
      else
        var b := Spaces(s, a + 1);
        if b == a + 1 || !LitAt(s, b, AsKw) then None
        else
          var c := Spaces(s, b + 2);
          var w := RunOf(s, c, IsIdentChar);
          var f := Spaces(s, w);
          if c == b + 2 || w == c || f == w || !LitAt(s, f, FromKw) then None
          else Some(StarPrefix + s[c..w])
  }

  function StarBinding(s: string): Option<string>
  {
    Leftmost(s, 0, StarBindingAt)
  }

  /** `jest\.mock\(["'](.+)["']` at i. */
  function GreedyMockModuleAt(s: string, i: nat): Option<string>
  {
    if !LitAt(s, i, JestMockCall) || i + 10 >= |s| || !IsQuote(s[i + 10]) then None
    else
      var e := RunOf(s, i + 11, NotLineTerminator);
      match LastQuote(s, i + 12, e)
      case None => None
      case Some(q) => Some(s[i + 11..q])
  }

  /** `line.match(/jest\.mock\(["'](.+)["']/)[1]` */
  function GreedyMockModule(s: string): Option<string>
  {
    Leftmost(s, 0, GreedyMockModuleAt)
  }

  // ------------------------------------------------------------------
  // Shapes matched by groupMocks

  /** `jest\.mock\((['"])([^'"]+)\1\s*(,|\))` at i: the closing quote must be the opening one. */
  function QuotedMockModuleAt(s: string, i: nat): Option<string>
  {
    if !LitAt(s, i, JestMockCall) || i + 10 >= |s| || !IsQuote(s[i + 10]) then None
    else
      var e := RunOf(s, i + 11, NotQuote);
      if e == i + 11 || e >= |s| || s[e] != s[i + 10] then None
      else
        var f := Spaces(s, e + 1);
        if f < |s| && (s[f] == ',' || s[f] == ')') then Some(s[i + 11..e]) else None
  }

  /** `mockBlock.match(/jest\.mock\((['"])([^'"]+)\1\s*(,|\))/)[2]` */
  function QuotedMockModule(s: string): Option<string>
  {
    Leftmost(s, 0, QuotedMockModuleAt)
  }

  /** The text between the parentheses of `\(\s*\)` or of `\(.*?\)`. */
  predicate ParamsText(s: string, lo: nat, hi: nat)
    requires lo <= hi <= |s|
  {
    (forall k :: lo <= k < hi ==> IsJsSpace(s[k])) || (forall k :: lo <= k < hi ==> NotLineTerminator(s[k]))
  }

  /** `,\s*(\(\s*\)|\(.*?\))\s*=>` or `,\s*function` starting at i. */
  predicate FactoryAt(s: string, i: nat)
  {
    i < |s| && s[i] == ','
    && var k := Spaces(s, i + 1);
       LitAt(s, k, FunctionKw)
       || (k < |s| && s[k] == '('
           && exists j :: k < j < |s| && s[j] == ')' && ParamsText(s, k + 1, j) && LitAt(s, Spaces(s, j + 1), Arrow))
  }

  /** `/,\s*(\(\s*\)|\(.*?\))\s*=>|,\s*function/.test(s)`: the mock has a factory. */
  predicate IsFactory(s: string)
  {
    exists i :: 0 <= i < |s| && FactoryAt(s, i)
  }

  // ------------------------------------------------------------------
  // `inner.split(/[\s,]+/).map(s => s.trim()).filter(Boolean)`

  /** The maximal runs of characters that are neither white space nor commas, from i on. */
  function TokensFrom(s: string, i: nat): (r: seq<string>)
    requires i <= |s|
    ensures forall k :: 0 <= k < |r| ==> r[k] != "" && forall c :: c in r[k] ==> NotListSep(c)
    decreases |s| - i
  {
    var a := RunOf(s, i, IsListSep);
    if a == |s| then []
    else
      var b := RunOf(s, a, NotListSep);
      assert forall c :: c in s[a..b] ==> NotListSep(c);
      [s[a..b]] + TokensFrom(s, b)
  }

  function Tokens(s: string): seq<string>
  {
    TokensFrom(s, 0)
  }
}
