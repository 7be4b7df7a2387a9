/**
 * The last two passes over a generated test file, as text-to-text
 * transformations: cleanBasicTest cuts the skeleton at the renderTree
 * helper, and cleanFinalTest puts the Testing Library lines first and marks
 * every repeat of a line the generator added.
 */
module FinalCleanup {
  import opened JsText

  // ------------------------------------------------------------------
  // cleanBasicTest

  const RenderTreeMarker := "const renderTree = tree => renderer.create(tree);"
  const Eol := "\n"

  predicate HasMarker(line: string) { Contains(line, RenderTreeMarker) }

  /** The index of the first line holding the marker, if any. */
  function MarkerIndex(lines: seq<string>): (r: Option<nat>)
    ensures r.Some? ==> r.value < |lines| && HasMarker(lines[r.value])
    ensures r.Some? ==> forall j :: 0 <= j < r.value ==> !HasMarker(lines[j])
    ensures r.None? ==> forall j :: 0 <= j < |lines| ==> !HasMarker(lines[j])
  {
    if |lines| == 0 then None
    else if HasMarker(lines[0]) then Some(0)
    else
      var rest := MarkerIndex(lines[1..]);
      assert forall j :: 1 <= j < |lines| ==> lines[j] == lines[1..][j - 1];
      if rest.Some? then Some(rest.value + 1) else None
  }

  /** What cleanBasicTest leaves in the file. */
  function BasicTestText(content: string): string
  {
    var lines := Split(content, '\n');
    match MarkerIndex(lines)
    case Some(k) => Join(lines[..k], Eol)
    case None => content
  }

  method CleanBasicTest(content: string) returns (r: string)
    ensures r == BasicTestText(content)
  {
    var lines := Split(content, '\n');
    var headerLines: seq<string> := [];
    var found := false;
    var i := 0;
    while i < |lines| && !found
      invariant i <= |lines|
      invariant headerLines == lines[..i]
      invariant found ==> MarkerIndex(lines) == Some(i)
      invariant !found ==> forall j :: 0 <= j < i ==> !HasMarker(lines[j])
      decreases |lines| - i, if found then 0 else 1
    {
      if Contains(lines[i], RenderTreeMarker) {
        found := true;
        MarkerAt(lines, i);
      } else {
        headerLines := headerLines + [lines[i]];
        i := i + 1;
      }
    }
    if !found {
      NoMarker(lines);
      r := content;
    } else {
      r := Join(headerLines, Eol);
    }
  }

  lemma MarkerAt(lines: seq<string>, i: nat)
    requires i < |lines| && HasMarker(lines[i]) && forall j :: 0 <= j < i ==> !HasMarker(lines[j])
    ensures MarkerIndex(lines) == Some(i)
  {
  }

  lemma NoMarker(lines: seq<string>)
    requires forall j :: 0 <= j < |lines| ==> !HasMarker(lines[j])
    ensures MarkerIndex(lines) == None
  {
  }

  /** With a marker line, the kept text reads back as exactly the lines before it, none holding the marker. */
  lemma BasicTestKeepsHeader(content: string)
    requires MarkerIndex(Split(content, '\n')).Some?
    ensures var lines := Split(content, '\n');
            var k := MarkerIndex(lines).value;
            var kept := Split(BasicTestText(content), '\n');
            (k > 0 ==> kept == lines[..k])
            && (k == 0 ==> BasicTestText(content) == "")
            && forall j :: 0 <= j < |kept| ==> !HasMarker(kept[j])
  {
    var lines := Split(content, '\n');
    var k := MarkerIndex(lines).value;
    if k > 0 {
      SplitJoin(lines[..k], '\n');
    } else {
      assert Split("", '\n') == [""];
      assert !HasMarker("");
    }
  }

  /** Without a marker line the file is left as it is. */
  lemma BasicTestUnchanged(content: string)
    requires forall j :: 0 <= j < |Split(content, '\n')| ==> !HasMarker(Split(content, '\n')[j])
    ensures BasicTestText(content) == content
  {
  }

  /** Cleaning a cleaned skeleton again changes nothing. */
  lemma BasicTestIdempotent(content: string)
    ensures BasicTestText(BasicTestText(content)) == BasicTestText(content)
  {
    var once := BasicTestText(content);
    if MarkerIndex(Split(content, '\n')).Some? {
      BasicTestKeepsHeader(content);
      NoMarker(Split(once, '\n'));
    }
  }

  // ------------------------------------------------------------------
  // cleanFinalTest

  /** The three Sets of `linesAdded`, as arrays in insertion order. */
  datatype Added = Added(importedLines: seq<string>, mockedLines: seq<string>, testingLibraryLines: seq<string>)

  const DuplicateMark := "//cleanFinal A BORRAR! "

  /** A line the generator added: its trim is one of the added lines. */
  predicate Tracked(added: Added, trimmed: string)
  {
    trimmed in added.importedLines || trimmed in added.mockedLines || trimmed in added.testingLibraryLines
  }

  /** The Testing Library lines that go first: trimmed, non-empty, each once. */
  function HeaderLines(added: Added): seq<string>
  {
    Distinct(TrimmedNonEmpty(added.testingLibraryLines))
  }

  /** Line i repeats a tracked line seen before it, or a header line. */
  predicate SeenBefore(added: Added, lines: seq<string>, i: nat)
    requires i < |lines|
  {
    Trim(lines[i]) in HeaderLines(added) || exists j :: 0 <= j < i && Trim(lines[j]) == Trim(lines[i])
  }

  /** The output line for input line i. */
  function OutLine(added: Added, lines: seq<string>, i: nat): string
    requires i < |lines|
  {
    if Tracked(added, Trim(lines[i])) && SeenBefore(added, lines, i) then DuplicateMark + lines[i] else lines[i]
  }

  /** The output lines for the first n input lines. */
  function OutLines(added: Added, lines: seq<string>, n: nat): (r: seq<string>)
    requires n <= |lines|
    ensures |r| == n && forall i :: 0 <= i < n ==> r[i] == OutLine(added, lines, i)
  {
    if n == 0 then [] else OutLines(added, lines, n - 1) + [OutLine(added, lines, n - 1)]
  }

  /** The lines cleanFinalTest writes, joined by newlines. */
  function FinalLines(content: string, added: Added): seq<string>
  {
    var lines := Split(content, '\n');
    HeaderLines(added) + OutLines(added, lines, |lines|)
  }

  function FinalText(content: string, added: Added): string
  {
    Join(FinalLines(content, added), Eol)
  }

  /** The trimmed texts already seen after the first i input lines. */
  ghost predicate SeenAfter(seen: set<string>, added: Added, lines: seq<string>, i: nat)
    requires i <= |lines|
  {
    forall t :: t in seen <==>
      t in HeaderLines(added) || exists j :: 0 <= j < i && Trim(lines[j]) == t && Tracked(added, t)
  }

  /** The header loop of cleanFinalTest. */
  method CollectHeader(testingLibraryLines: seq<string>) returns (headerLines: seq<string>, headerSeen: set<string>)
    ensures headerLines == Distinct(TrimmedNonEmpty(testingLibraryLines))
    ensures forall t :: t in headerSeen <==> t in headerLines
  {
    headerLines := [];
    headerSeen := {};
    for i := 0 to |testingLibraryLines|
      invariant headerLines == Distinct(TrimmedNonEmpty(testingLibraryLines[..i]))
      invariant forall t :: t in headerSeen <==> t in headerLines
    {
      var trimmed := Trim(testingLibraryLines[i]);
      ghost var before := TrimmedNonEmpty(testingLibraryLines[..i]);
      TrimmedSnoc(testingLibraryLines, i);
      DistinctMembers(before);
      if trimmed != "" {
        DistinctSnoc(before, trimmed);
        if trimmed !in headerSeen {
          headerLines := headerLines + [trimmed];
          headerSeen := headerSeen + {trimmed};
        }
      } else {
        assert before + [] == before;
      }
    }
    assert testingLibraryLines[..|testingLibraryLines|] == testingLibraryLines;
  }

  /** One input line: the output line and the seen Set after it. */
  lemma SeenStep(seen: set<string>, added: Added, lines: seq<string>, i: nat)
    requires i < |lines| && SeenAfter(seen, added, lines, i)
    ensures var t := Trim(lines[i]);
            (Tracked(added, t) && t in seen ==> OutLine(added, lines, i) == DuplicateMark + lines[i])
            && (!(Tracked(added, t) && t in seen) ==> OutLine(added, lines, i) == lines[i])
            && SeenAfter(if Tracked(added, t) then seen + {t} else seen, added, lines, i + 1)
  {
    var t := Trim(lines[i]);
    if Tracked(added, t) && SeenBefore(added, lines, i) && t !in HeaderLines(added) {
      var j :| 0 <= j < i && Trim(lines[j]) == t;
    }
  }

  method CleanFinalTest(content: string, added: Added) returns (r: string)
    ensures r == FinalText(content, added)
  {
    var lines := Split(content, '\n');
    var headerLines, headerSeen := CollectHeader(added.testingLibraryLines);
    var seen := headerSeen;
    var cleanedLines := headerLines;
    for i := 0 to |lines|
      invariant cleanedLines == headerLines + OutLines(added, lines, i)
      invariant SeenAfter(seen, added, lines, i)
    {
      var line := lines[i];
      var trimmed := Trim(line);
      SeenStep(seen, added, lines, i);
      if trimmed in added.importedLines || trimmed in added.mockedLines || trimmed in added.testingLibraryLines {
        if trimmed in seen {
          cleanedLines := cleanedLines + [DuplicateMark + line];
        } else {
          seen := seen + {trimmed};
          cleanedLines := cleanedLines + [line];
        }
      } else {
        cleanedLines := cleanedLines + [line];
      }
    }
    r := Join(cleanedLines, Eol);
  }

  // ------------------------------------------------------------------
  // What cleanFinalTest promises

  /** The header is the distinct non-empty trimmed library lines, in first-seen order, then one line per input line. */
  lemma FinalLayout(content: string, added: Added)
    ensures var lines := Split(content, '\n');
            var h := HeaderLines(added);
            |FinalLines(content, added)| == |h| + |lines|
            && FinalLines(content, added)[..|h|] == h
            && NoDup(h)
            && (forall k :: 0 <= k < |h| ==> h[k] != "" && Trim(h[k]) == h[k])
            && (forall t :: t in h <==> t in TrimmedNonEmpty(added.testingLibraryLines))
  {
    var h := HeaderLines(added);
    DistinctNoDup(TrimmedNonEmpty(added.testingLibraryLines));
    DistinctMembers(TrimmedNonEmpty(added.testingLibraryLines));
    TrimmedNonEmptyAreTrimmed(added.testingLibraryLines);
    forall k | 0 <= k < |h| ensures h[k] != "" && Trim(h[k]) == h[k] {
      assert h[k] in TrimmedNonEmpty(added.testingLibraryLines);
    }
    assert FinalLines(content, added)[..|h|] == h;
  }

  /** Untracked lines pass through unchanged. */
  lemma UntrackedKept(content: string, added: Added, i: nat)
    requires i < |Split(content, '\n')| && !Tracked(added, Trim(Split(content, '\n')[i]))
    ensures FinalLines(content, added)[|HeaderLines(added)| + i] == Split(content, '\n')[i]
  {
  }

  /** The first occurrence of a tracked line that is not a header line is kept as it is. */
  lemma FirstOccurrenceKept(content: string, added: Added, i: nat)
    requires i < |Split(content, '\n')|
    requires var lines := Split(content, '\n');
             Trim(lines[i]) !in HeaderLines(added) && forall j :: 0 <= j < i ==> Trim(lines[j]) != Trim(lines[i])
    ensures FinalLines(content, added)[|HeaderLines(added)| + i] == Split(content, '\n')[i]
  {
  }

  /** Every later occurrence of a tracked line, and any tracked header line, is marked. */
  lemma RepeatMarked(content: string, added: Added, i: nat, j: nat)
    requires j < |Split(content, '\n')|
    requires var lines := Split(content, '\n');
             Tracked(added, Trim(lines[j])) && ((i < j && Trim(lines[i]) == Trim(lines[j])) || Trim(lines[j]) in HeaderLines(added))
    ensures FinalLines(content, added)[|HeaderLines(added)| + j] == DuplicateMark + Split(content, '\n')[j]
  {
  }

  /** Of all lines with the same tracked trim, at most one is left unmarked, and none when it is a header line. */
  lemma AtMostOneUnmarked(added: Added, lines: seq<string>, i: nat, j: nat)
    requires i < j < |lines|
    requires Tracked(added, Trim(lines[i])) && Trim(lines[i]) == Trim(lines[j])
    ensures OutLines(added, lines, |lines|)[j] != lines[j]
    ensures Trim(lines[i]) in HeaderLines(added) ==> OutLines(added, lines, |lines|)[i] != lines[i]
  {
    assert SeenBefore(added, lines, j);
    assert |DuplicateMark + lines[j]| > |lines[j]|;
    assert |DuplicateMark + lines[i]| > |lines[i]|;
  }

  /** Given no repeated tracked line and no tracked header line, the input lines come out as they are. */
  lemma {:induction false} CleanInputUnchanged(added: Added, lines: seq<string>, n: nat)
    requires n <= |lines|
    requires forall i :: 0 <= i < |lines| && Tracked(added, Trim(lines[i])) ==> Trim(lines[i]) !in HeaderLines(added)
    requires forall i, j :: 0 <= i < j < |lines| && Tracked(added, Trim(lines[j])) ==> Trim(lines[i]) != Trim(lines[j])
    ensures OutLines(added, lines, n) == lines[..n]
    decreases n
  {
    if n > 0 {
      CleanInputUnchanged(added, lines, n - 1);
      assert lines[..n] == lines[..n - 1] + [lines[n - 1]];
    }
  }
}
