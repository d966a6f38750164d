/**
 * Quorum-loss recovery (`k8sd cluster-recover`): the prechecks, the two text filters applied
 * to what the operator edits, the editor round of one YAML file, and which files the
 * recovery writes back before handing the new member list to microcluster.
 */
module ClusterRecover {
  import opened Common
  import opened ApiTypes
  import opened FileStore

  // ---------------------------------------------------------------------------------------
  // Prechecks

  /** `strings.ToLower` on ASCII letters. No other character lowers to one of "yes". */
  function ToLower(s: string): (r: string)
    ensures |r| == |s|
    ensures forall i :: 0 <= i < |s| ==> r[i] == if 'A' <= s[i] <= 'Z' then (s[i] as int + 32) as char else s[i]
  {
    if |s| == 0 then "" else
      var c := s[0];
      [if 'A' <= c <= 'Z' then (c as int + 32) as char else c] + ToLower(s[1..])
  }

  /** The answer to the confirmation prompt, a line read up to and including its newline, says yes. */
  predicate Confirms(line: string)
  {
    ToLower(TrimSuffix(line, "\n")) == "yes"
  }

  /** Exactly "yes" in any mix of cases, optionally followed by one newline, confirms. */
  lemma ConfirmsExactly(line: string)
    ensures Confirms(line) <==>
      var t := TrimSuffix(line, "\n");
      |t| == 3 && t[0] in "yY" && t[1] in "eE" && t[2] in "sS"
  {
    var t := TrimSuffix(line, "\n");
    if |ToLower(t)| == 3 {
      assert ToLower(t)[0] == 'y' <==> t[0] in "yY";
      assert ToLower(t)[1] == 'e' <==> t[1] in "eE";
      assert ToLower(t)[2] == 's' <==> t[2] in "sS";
    }
  }

  /** The outcome of the prechecks and whether they read a line from stdin. */
  datatype Precheck = Precheck(err: Outcome, readStdin: bool)

  /**
   * `recoveryCmdPrechecks`. `stdinLine` is what `ReadString('\n')` returns: the line with its
   * newline, or an error when stdin ends first.
   */
  function RecoveryCmdPrechecks(stdinIsTerminal: bool, nonInteractive: bool, stateDir: string, stdinLine: Result<string>): (r: Precheck)
    ensures !stdinIsTerminal && !nonInteractive ==>
      r == Precheck(Fail("interactive mode requested in a non-interactive terminal"), false)
    ensures (stdinIsTerminal || nonInteractive) && stateDir == "" ==> r == Precheck(Fail("k8sd state dir not specified"), false)
    ensures nonInteractive ==> !r.readStdin && (r.err.Pass? <==> stateDir != "")
    ensures r.readStdin <==> stdinIsTerminal && !nonInteractive && stateDir != ""
    ensures r.readStdin ==> (r.err.Pass? <==> stdinLine.Ok? && Confirms(stdinLine.value))
  {
    if !stdinIsTerminal && !nonInteractive then Precheck(Fail("interactive mode requested in a non-interactive terminal"), false)
    else if stateDir == "" then Precheck(Fail("k8sd state dir not specified"), false)
    else if nonInteractive then Precheck(Pass, false)
    else if stdinLine.Err? then Precheck(Fail(Wrap("couldn't read user input, error", stdinLine.error)), true)
    else if !Confirms(stdinLine.value) then Precheck(Fail("cluster edit aborted; no changes made"), true)
    else Precheck(Pass, true)
  }

  // ---------------------------------------------------------------------------------------
  // Helper-comment stripping

  /** The footer after its opening '#': " ------- everything below will be written -------\n". */
  const FooterTail: string := " ------- " + "everything" + " below " + "will be " + "written" + " -------\n"

  /** The line that separates the guide from the content the editor writes back. */
  const Footer: string := "#" + FooterTail

  /** The characters of `p` from index `d` on appear in `t` from index `k + d` on. */
  predicate MatchesFrom(t: string, p: string, k: nat, d: nat)
    requires k + |p| <= |t| && d <= |p|
    decreases |p| - d
  {
    d == |p| || (t[k + d] == p[d] && MatchesFrom(t, p, k, d + 1))
  }

  /** The character-by-character comparison is the occurrence test. */
  lemma {:induction false} MatchesFromIff(t: string, p: string, k: nat, d: nat)
    requires k + |p| <= |t| && d <= |p|
    ensures MatchesFrom(t, p, k, d) <==> t[k + d..k + |p|] == p[d..]
    decreases |p| - d
  {
    if d < |p| {
      MatchesFromIff(t, p, k, d + 1);
      var x, y := t[k + d..k + |p|], p[d..];
      assert x[1..] == t[k + d + 1..k + |p|] && y[1..] == p[d + 1..];
      assert x[0] == t[k + d] && y[0] == p[d];
      if x[0] == y[0] && x[1..] == y[1..] {
        assert x == [x[0]] + x[1..] && y == [y[0]] + y[1..];
      }
    }
  }

  /** Matching from the start is occurring. */
  lemma MatchesIffOccurs(t: string, p: string, k: nat)
    ensures k + |p| <= |t| ==> (MatchesFrom(t, p, k, 0) <==> OccursAt(t, p, k))
  {
    if k + |p| <= |t| {
      MatchesFromIff(t, p, k, 0);
      assert p[0..] == p;
    }
  }

  /** The first occurrence of `p` in `t` at or after `k`. */
  function FindFrom(t: string, p: string, k: nat): (r: Option<nat>)
    ensures r.Some? ==> k <= r.value && r.value + |p| <= |t|
    decreases |t| - k
  {
    if k + |p| > |t| then None
    else if MatchesFrom(t, p, k, 0) then Some(k)
    else FindFrom(t, p, k + 1)
  }

  /** The occurrence found is the first one, and there is none at all when nothing is found. */
  lemma {:induction false} FindFromIsFirst(t: string, p: string, k: nat)
    ensures FindFrom(t, p, k).Some? ==> OccursAt(t, p, FindFrom(t, p, k).value)
    ensures FindFrom(t, p, k).Some? ==> forall j :: k <= j < FindFrom(t, p, k).value ==> !OccursAt(t, p, j)
    ensures FindFrom(t, p, k).None? <==> forall j :: k <= j <= |t| ==> !OccursAt(t, p, j)
    decreases |t| - k
  {
    MatchesIffOccurs(t, p, k);
    if k + |p| <= |t| && !MatchesFrom(t, p, k, 0) {
      FindFromIsFirst(t, p, k + 1);
    }
  }

  /** The search finds nothing exactly when the text does not contain the pattern. */
  lemma FindNothingIffAbsent(t: string, p: string)
    ensures FindFrom(t, p, 0).None? <==> !Contains(t, p)
  {
    FindFromIsFirst(t, p, 0);
  }

  /** Starting the search later gives the same answer when no occurrence is skipped. */
  lemma {:induction false} FindFromSkip(t: string, p: string, a: nat, b: nat)
    requires a <= b
    requires forall k :: a <= k < b ==> !OccursAt(t, p, k)
    ensures FindFrom(t, p, a) == FindFrom(t, p, b)
    decreases b - a
  {
    if a < b {
      MatchesIffOccurs(t, p, a);
      FindFromSkip(t, p, a + 1, b);
    }
  }

  /** Comparing in a suffix compares the same characters of the whole text. */
  lemma {:induction false} MatchesInSuffix(s: string, p: string, m: nat, q: nat, d: nat)
    requires m <= |s| && q + |p| <= |s| - m && d <= |p|
    ensures MatchesFrom(s[m..], p, q, d) <==> MatchesFrom(s, p, m + q, d)
    decreases |p| - d
  {
    if d < |p| {
      assert s[m..][q + d] == s[m + q + d];
      MatchesInSuffix(s, p, m, q, d + 1);
    }
  }

  /** Searching a suffix finds nothing exactly when searching the whole text from the same place does not. */
  lemma {:induction false} FindFromInSuffix(s: string, p: string, m: nat, q: nat)
    requires m <= |s|
    ensures FindFrom(s[m..], p, q).None? <==> FindFrom(s, p, m + q).None?
    decreases |s| - m - q
  {
    if q + |p| <= |s| - m {
      MatchesInSuffix(s, p, m, q, 0);
      if !MatchesFrom(s, p, m + q, 0) {
        FindFromInSuffix(s, p, m, q + 1);
      }
    }
  }

  /** The index of the first non-space at or after `k`: the end of the ` *` after the footer. */
  function SkipSpaces(s: string, k: nat): (e: nat)
    requires k <= |s|
    ensures k <= e <= |s|
    ensures e < |s| ==> s[e] != ' '
    decreases |s| - k
  {
    if k < |s| && s[k] == ' ' then SkipSpaces(s, k + 1) else k
  }

  /** Everything SkipSpaces passes over is a space. */
  lemma {:induction false} SkippedAreSpaces(s: string, k: nat, q: nat)
    requires k <= |s| && k <= q < SkipSpaces(s, k)
    ensures s[q] == ' '
    decreases |s| - k
  {
    if q > k {
      SkippedAreSpaces(s, k + 1, q);
    }
  }

  /**
   * Where the text resumes once every match of "(?s).*?P *" from index `a` on has been
   * deleted, left to right: each match is the shortest stretch ending in P, then the
   * spaces after it.
   */
  function ResumeIndex(s: string, p: string, a: nat): (b: nat)
    requires |p| > 0 && a <= |s|
    ensures a <= b <= |s|
    decreases |s| - a
  {
    match FindFrom(s, p, a)
    case None => a
    case Some(i) => ResumeIndex(s, p, SkipSpaces(s, i + |p|))
  }

  /**
   * `ReplaceAll(s, "(?s).*?P *", "")` for a non-empty literal P: text without the pattern is
   * left alone, the result never contains it, and it is a suffix of `s`.
   */
  function RemoveThroughPattern(s: string, p: string): (r: string)
    requires |p| > 0
    ensures !Contains(s, p) ==> r == s
    ensures !Contains(r, p)
    ensures |r| <= |s| && r == s[|s| - |r|..]
  {
    var b := ResumeIndex(s, p, 0);
    FindNothingIffAbsent(s, p);
    ResumeIndexEndsSearch(s, p, 0);
    FindFromInSuffix(s, p, b, 0);
    FindNothingIffAbsent(s[b..], p);
    s[b..]
  }

  /** No occurrence is left where the deletion stops. */
  lemma {:induction false} ResumeIndexEndsSearch(s: string, p: string, a: nat)
    requires |p| > 0 && a <= |s|
    ensures FindFrom(s, p, ResumeIndex(s, p, a)).None?
    decreases |s| - a
  {
    match FindFrom(s, p, a)
    case None =>
    case Some(i) => ResumeIndexEndsSearch(s, p, SkipSpaces(s, i + |p|));
  }

  /** `removeYamlHelperComments`: the guide, up to its footer, is deleted. */
  function RemoveYamlHelperComments(s: string): (r: string)
    ensures !Contains(s, Footer) ==> r == s
    ensures !Contains(r, Footer)
    ensures |r| <= |s| && r == s[|s| - |r|..]
  {
    RemoveThroughPattern(s, Footer)
  }

  /** A pattern whose first character is not a space and appears nowhere else in it. */
  predicate SelfDisjoint(p: string)
  {
    |p| > 0 && p[0] != ' ' && forall d :: 1 <= d < |p| ==> p[d] != p[0]
  }

  /** The footer is such a pattern: '#' opens it and appears nowhere else in it. */
  lemma FooterIsSelfDisjoint()
    ensures SelfDisjoint(Footer)
  {
    assert '#' !in " ------- " && '#' !in "everything" && '#' !in " below ";
    assert '#' !in "will be " && '#' !in "written" && '#' !in " -------\n";
    forall d | 1 <= d < |Footer|
      ensures Footer[d] != Footer[0]
    {
      assert Footer[d] == FooterTail[d - 1];
    }
  }

  /** An occurrence opens with the pattern's first character. */
  lemma HeadOfOccurrence(s: string, p: string, k: int)
    requires |p| > 0
    ensures OccursAt(s, p, k) ==> s[k] == p[0]
  {
    if OccursAt(s, p, k) {
      assert s[k..k + |p|][0] == s[k];
    }
  }

  /** No occurrence starts inside another occurrence or inside the spaces that follow it. */
  lemma OccurrencesDoNotOverlap(s: string, p: string, i: nat, k: int)
    requires SelfDisjoint(p) && OccursAt(s, p, i)
    requires i < k < SkipSpaces(s, i + |p|)
    ensures !OccursAt(s, p, k)
  {
    if k < i + |p| {
      assert s[k] == s[i..i + |p|][k - i] == p[k - i];
    } else {
      SkippedAreSpaces(s, i + |p|, k);
    }
    HeadOfOccurrence(s, p, k);
  }

  /**
   * For a self-disjoint pattern whose last occurrence is at `j`, the deletion from any
   * index up to `j` resumes right after that occurrence and the spaces behind it.
   */
  lemma {:induction false} ResumeAtLastOccurrence(s: string, p: string, a: nat, j: nat)
    requires SelfDisjoint(p) && OccursAt(s, p, j) && a <= j && FindFrom(s, p, j + 1).None?
    ensures ResumeIndex(s, p, a) == SkipSpaces(s, j + |p|)
    decreases |s| - a
  {
    var first := FindFrom(s, p, a);
    assert first.Some? && first.value <= j && OccursAt(s, p, first.value) by {
      FindFromIsFirst(s, p, a);
    }
    var i := first.value;
    var m := SkipSpaces(s, i + |p|);
    if i == j {
      forall k | j + 1 <= k < m
        ensures !OccursAt(s, p, k)
      {
        OccurrencesDoNotOverlap(s, p, j, k);
      }
      FindFromSkip(s, p, j + 1, m);
    } else {
      if j < m {
        OccurrencesDoNotOverlap(s, p, i, j);
      }
      ResumeAtLastOccurrence(s, p, m, j);
    }
  }

  /**
   * With a footer present the result is what follows the LAST footer, without the spaces
   * right after it: the guide and any footer the operator left in are both removed.
   */
  lemma HelperCommentsEndAtLastFooter(s: string, j: nat)
    requires OccursAt(s, Footer, j)
    requires forall k :: j < k <= |s| ==> !OccursAt(s, Footer, k)
    ensures RemoveYamlHelperComments(s) == s[SkipSpaces(s, j + |Footer|)..]
  {
    FooterIsSelfDisjoint();
    FindFromIsFirst(s, Footer, j + 1);
    ResumeAtLastOccurrence(s, Footer, 0, j);
  }

  // ---------------------------------------------------------------------------------------
  // Blank-line stripping

  /** The characters RE2's `\s` matches. */
  predicate IsSpace(c: char)
  {
    c == '\t' || c == '\n' || c == 12 as char || c == '\r' || c == ' '
  }

  /** The length of the run of `\s` characters that opens `s`. */
  function SpaceRun(s: string): (n: nat)
    ensures n <= |s|
    ensures forall k :: 0 <= k < n ==> IsSpace(s[k])
    ensures n < |s| ==> !IsSpace(s[n])
  {
    if |s| > 0 && IsSpace(s[0]) then 1 + SpaceRun(s[1..]) else 0
  }

  /** The index of the last newline among the first `n` characters. */
  function LastNewline(s: string, n: nat): (r: Option<nat>)
    requires n <= |s|
    ensures r.Some? ==> r.value < n && s[r.value] == '\n' && forall k :: r.value < k < n ==> s[k] != '\n'
    ensures r.None? ==> forall k :: 0 <= k < n ==> s[k] != '\n'
  {
    if n == 0 then None
    else if s[n - 1] == '\n' then Some(n - 1)
    else LastNewline(s, n - 1)
  }

  /**
   * The matches of "(?m)^\s*$" deleted from `s`; `atLineStart` says whether `s` starts a line.
   * At a line start the greedy `\s*` takes the whole run of white space and backs off to the
   * last point where `$` holds: the end of the text, or the run's last newline.
   */
  function RemoveEmptyLinesFrom(s: string, atLineStart: bool): string
    decreases |s|
  {
    if |s| == 0 then ""
    else if atLineStart then
      var n := SpaceRun(s);
      if n == |s| then ""
      else
        match LastNewline(s, n)
        case None => [s[0]] + RemoveEmptyLinesFrom(s[1..], false)
        case Some(l) => "\n" + RemoveEmptyLinesFrom(s[l + 1..], true)
    else [s[0]] + RemoveEmptyLinesFrom(s[1..], s[0] == '\n')
  }

  /** `removeEmptyLines`: only white space is deleted, so the text is kept and never grows. */
  function RemoveEmptyLines(s: string): (r: string)
    ensures NonSpace(r) == NonSpace(s)
    ensures |r| <= |s|
  {
    RemoveEmptyLinesKeepsText(s, true);
    RemoveEmptyLinesShortens(s, true);
    RemoveEmptyLinesFrom(s, true)
  }

  /** The characters of `s` that are not white space, in order. */
  function NonSpace(s: string): string
  {
    if |s| == 0 then "" else (if IsSpace(s[0]) then "" else [s[0]]) + NonSpace(s[1..])
  }

  lemma {:induction false} NonSpaceAppend(a: string, b: string)
    ensures NonSpace(a + b) == NonSpace(a) + NonSpace(b)
    decreases |a|
  {
    if |a| > 0 {
      assert (a + b)[1..] == a[1..] + b;
      NonSpaceAppend(a[1..], b);
    } else {
      assert a + b == b;
    }
  }

  lemma {:induction false} NonSpaceOfSpaces(s: string)
    requires forall k :: 0 <= k < |s| ==> IsSpace(s[k])
    ensures NonSpace(s) == ""
    decreases |s|
  {
    if |s| > 0 {
      NonSpaceOfSpaces(s[1..]);
    }
  }

  /** Blank-line stripping deletes only white space: every other character survives, in order. */
  lemma {:induction false} RemoveEmptyLinesKeepsText(s: string, atLineStart: bool)
    ensures NonSpace(RemoveEmptyLinesFrom(s, atLineStart)) == NonSpace(s)
    decreases |s|
  {
    if |s| > 0 {
      if atLineStart {
        var n := SpaceRun(s);
        if n == |s| {
          NonSpaceOfSpaces(s);
        } else {
          match LastNewline(s, n)
          case None =>
            RemoveEmptyLinesKeepsText(s[1..], false);
            NonSpaceAppend([s[0]], RemoveEmptyLinesFrom(s[1..], false));
          case Some(l) =>
            RemoveEmptyLinesKeepsText(s[l + 1..], true);
            NonSpaceAppend("\n", RemoveEmptyLinesFrom(s[l + 1..], true));
            assert s == s[..l + 1] + s[l + 1..];
            NonSpaceAppend(s[..l + 1], s[l + 1..]);
            NonSpaceOfSpaces(s[..l + 1]);
        }
      } else {
        RemoveEmptyLinesKeepsText(s[1..], s[0] == '\n');
        NonSpaceAppend([s[0]], RemoveEmptyLinesFrom(s[1..], s[0] == '\n'));
      }
    }
  }

  /** Blank-line stripping never makes the text longer. */
  lemma {:induction false} RemoveEmptyLinesShortens(s: string, atLineStart: bool)
    ensures |RemoveEmptyLinesFrom(s, atLineStart)| <= |s|
    decreases |s|
  {
    if |s| > 0 {
      if atLineStart {
        var n := SpaceRun(s);
        if n < |s| {
          match LastNewline(s, n)
          case None => RemoveEmptyLinesShortens(s[1..], false);
          case Some(l) => RemoveEmptyLinesShortens(s[l + 1..], true);
        }
      } else {
        RemoveEmptyLinesShortens(s[1..], s[0] == '\n');
      }
    }
  }

  // ---------------------------------------------------------------------------------------
  // The editor round and the recovery

  /**
   * What the editor hands back, cleaned of the guide and of blank lines: no longer than the
   * answer, and holding the text of the answer after its last footer.
   */
  function Cleaned(edited: string): (r: string)
    ensures |r| <= |edited|
    ensures NonSpace(r) == NonSpace(RemoveYamlHelperComments(edited))
    ensures !Contains(edited, Footer) ==> NonSpace(r) == NonSpace(edited)
  {
    RemoveEmptyLines(RemoveYamlHelperComments(edited))
  }

  /** A character that is not white space is in the non-space text of `s` iff it is in `s`. */
  lemma {:induction false} InNonSpace(s: string, x: char)
    requires !IsSpace(x)
    ensures x in NonSpace(s) <==> x in s
    decreases |s|
  {
    if |s| > 0 {
      InNonSpace(s[1..], x);
      assert s == [s[0]] + s[1..];
    }
  }

  /**
   * The text after the last footer is what the helper-comment removal keeps, when it holds no
   * '#' and does not start with a space.
   */
  lemma GuideTailKept(guide: string, t: string)
    requires '#' !in t && (|t| > 0 ==> t[0] != ' ')
    ensures RemoveYamlHelperComments(guide + Footer + t) == t
  {
    var s := guide + Footer + t;
    var j := |guide|;
    FooterIsSelfDisjoint();
    assert s[j..j + |Footer|] == Footer;
    assert Footer[0] == '#';
    forall k | j < k <= |s|
      ensures !OccursAt(s, Footer, k)
    {
      HeadOfOccurrence(s, Footer, k);
      if k < j + |Footer| {
        assert s[k] == Footer[k - j];
      } else if k < |s| {
        assert s[k] == t[k - j - |Footer|];
      }
    }
    HelperCommentsEndAtLastFooter(s, j);
    assert s[j + |Footer|..] == t;
  }


  /** Two file maps agree on every path outside `changed`. */
  ghost predicate AgreeOutside(a: map<string, string>, b: map<string, string>, changed: set<string>)
  {
    forall p :: (p in a || p in b) && p !in changed ==> p in a && p in b && a[p] == b[p]
  }

  /** Reading the file, when the round reads it, succeeds. */
  predicate ReadSucceeds(contents: map<string, string>, readFaults: set<string>, path: string, readFile: bool)
  {
    !readFile || (path in contents && path !in readFaults)
  }

  /** The text the editor opens with: the guide, a newline and the current content without blank lines. */
  function EditorInput(contents: map<string, string>, path: string, readFile: bool, guide: string): string
  {
    guide + "\n" + (if readFile && path in contents then RemoveEmptyLines(contents[path]) else "")
  }

  /** The outcome of one editor round, and the files after it. */
  datatype Round = Round(result: Result<string>, contents: map<string, string>)

  /**
   * One editor round over the files `contents`, of which `readFaults` refuse reads and
   * `writeFaults` refuse writes: the file is read when `readFile`, the guide and the content
   * go to the editor `edit`, the answer is cleaned and, when `applyChanges`, written back.
   */
  function EditorRound(contents: map<string, string>, readFaults: set<string>, writeFaults: set<string>, path: string,
                       readFile: bool, guide: string, applyChanges: bool, edit: string -> Result<string>): (r: Round)
    ensures var edited := edit(EditorInput(contents, path, readFile, guide));
      (r.result.Ok? <==> ReadSucceeds(contents, readFaults, path, readFile) && edited.Ok?
                         && (applyChanges ==> path !in writeFaults))
      && (r.result.Ok? ==> r.result.value == Cleaned(edited.value))
    // The file changes only when the round succeeds and applies its changes, and then holds what the round answers.
    ensures r.contents == if applyChanges && r.result.Ok? then contents[path := r.result.value] else contents
    ensures AgreeOutside(contents, r.contents, {path})
  {
    if readFile && (path in readFaults || path !in contents) then
      Round(Err("could not read file: " + path + ", error: " + (if path in readFaults then ReadError(path) else MissingError(path))),
            contents)
    else
      var edited := edit(EditorInput(contents, path, readFile, guide));
      if edited.Err? then Round(Err(Wrap("text editor failed, error", edited.error)), contents)
      else if applyChanges && path in writeFaults then
        Round(Err("could not write file: " + path + ", error: " + WriteError(path)), contents)
      else if applyChanges then Round(Ok(Cleaned(edited.value)), contents[path := Cleaned(edited.value)])
      else Round(Ok(Cleaned(edited.value)), contents)
  }

  /**
   * `yamlEditorGuide`: shows the guide and the file's current content (none unless
   * `readFile`) in the text editor `edit`, cleans what comes back and, when `applyChanges`,
   * writes it to the file.
   */
  method YamlEditorGuide(files: Files, path: string, readFile: bool, guide: string, applyChanges: bool,
                         edit: string -> Result<string>) returns (r: Result<string>)
    modifies files`contents
    ensures var round := EditorRound(old(files.contents), files.readFaults, files.writeFaults, path, readFile, guide, applyChanges, edit);
      r == round.result && files.contents == round.contents
  {
    var current := "";
    if readFile {
      var read := files.ReadFile(path);
      if read.Err? {
        return Err("could not read file: " + path + ", error: " + read.error);
      }
      current := RemoveEmptyLines(read.value);
    }
    var edited := edit(guide + "\n" + current);
    if edited.Err? {
      return Err(Wrap("text editor failed, error", edited.error));
    }
    var newContent := RemoveYamlHelperComments(edited.value);
    newContent := RemoveEmptyLines(newContent);
    if applyChanges {
      var w := files.WriteFile(path, newContent);
      if w.Fail? {
        return Err("could not write file: " + path + ", error: " + w.error);
      }
    }
    return Ok(newContent);
  }

  /** `path.Join` of a directory and a file name, for directory names that need no cleaning. */
  function PathJoin(dir: string, name: string): (r: string)
    ensures |name| <= |r| && r[|r| - |name|..] == name
  {
    if dir == "" then name
    else if dir[|dir| - 1] == '/' then dir + name
    else dir + "/" + name
  }

  /** Two joined paths differ when the shorter name does not end the longer one. */
  lemma JoinedNamesDiffer(d1: string, d2: string, n1: string, n2: string)
    requires |n2| <= |n1| && n1[|n1| - |n2|..] != n2
    ensures PathJoin(d1, n1) != PathJoin(d2, n2)
  {
    var p1, p2 := PathJoin(d1, n1), PathJoin(d2, n2);
    assert p1[|p1| - |n2|..] == p1[|p1| - |n1|..][|n1| - |n2|..];
    assert p1[|p1| - |n2|..] != p2[|p2| - |n2|..];
  }

  /** A dqlite cluster member as `cluster.yaml` lists it. */
  datatype DqliteMember = DqliteMember(id: int, name: string, address: string, role: string)

  /** The directories of the microcluster app. */
  datatype AppDirs = AppDirs(databaseDir: string, stateDir: string)

  const ClusterRecoveryComment: string :=
    "# Member roles can be modified. Unrecoverable nodes should be given the role \"spare\".\n"
    + "#\n"
    + "# \"voter\" (0) - Voting member of the database. A majority of voters is a quorum.\n"
    + "# \"stand-by\" (1) - Non-voting member of the database; can be promoted to voter.\n"
    + "# \"spare\" (2) - Not a member of the database.\n"
    + "#\n"
    + "# The edit is aborted if:\n"
    + "# - the number of members changes\n"
    + "# - the name of any member changes\n"
    + "# - the ID of any member changes\n"
    + "# - the address of any member changes\n"
    + "# - no changes are made\n"

  const InfoYamlRecoveryComment: string := "# Verify the ID, address and role of the local node.\n#\n# Cluster members:\n"
  const DaemonYamlRecoveryComment: string := "# Verify the name and address of the local node.\n#\n# Cluster members:\n"

  function ClusterYamlPath(app: AppDirs): string { PathJoin(app.databaseDir, "cluster.yaml") }
  function InfoYamlPath(app: AppDirs): string { PathJoin(app.databaseDir, "info.yaml") }
  function DaemonYamlPath(app: AppDirs): string { PathJoin(app.stateDir, "daemon.yaml") }

  /** The recovery rewrites info.yaml and daemon.yaml, and neither is cluster.yaml. */
  lemma ClusterYamlIsNotRewritten(app: AppDirs)
    ensures ClusterYamlPath(app) != InfoYamlPath(app)
    ensures ClusterYamlPath(app) != DaemonYamlPath(app)
  {
    assert "cluster.yaml"[3..][0] == 's' != "info.yaml"[0];
    assert "cluster.yaml"[1..][0] == 'l' != "daemon.yaml"[0];
    JoinedNamesDiffer(app.databaseDir, app.databaseDir, "cluster.yaml", "info.yaml");
    JoinedNamesDiffer(app.databaseDir, app.stateDir, "cluster.yaml", "daemon.yaml");
  }

  /** `b` ends `a + b`, and splitting there gives the two parts back. */
  lemma SuffixOfConcat(a: string, b: string)
    ensures |a + b| >= |b| && (a + b)[|a + b| - |b|..] == b && (a + b)[..|a|] == a
  {
  }

  /** Regrouping `a + (b + n + m) + n` as `a + b + (n + m + n)`. */
  lemma Regroup(a: string, b: string, n: string, m: string)
    ensures a + (b + n + m) + n == a + b + (n + m + n)
  {
  }

  /** The comment lines above the member list: its header naming cluster.yaml, and the roles guide. */
  function ClusterHeader(app: AppDirs): string
  {
    "# K8sd cluster configuration\n# (based on the trust store and " + ClusterYamlPath(app) + ")\n"
    + "#\n" + ClusterRecoveryComment
  }

  /** The guide above the member list the operator edits; the list follows the footer. */
  function ClusterGuide(app: AppDirs, membersYaml: string): (r: string)
    ensures |r| >= |Footer| + 1 + |membersYaml| && r[|r| - |membersYaml| - 1 - |Footer|..] == Footer + "\n" + membersYaml
    ensures |r| >= |ClusterHeader(app)| && r[..|ClusterHeader(app)|] == ClusterHeader(app)
  {
    SuffixOfConcat(ClusterHeader(app), Footer + "\n" + membersYaml);
    ClusterHeader(app) + (Footer + "\n" + membersYaml)
  }

  /** The comment lines above a rewritten file: its header naming the file, its guide, and the edited member list. */
  function RewriteHeader(title: string, path: string, comment: string, clusterYaml: string, commentLines: string -> string): string
  {
    "# K8sd " + title + "\n# (" + path + ")\n" + "#\n" + comment + commentLines(clusterYaml) + "\n"
  }

  /** The guide above info.yaml: the edited member list as comment lines, then the footer. */
  function InfoGuide(app: AppDirs, clusterYaml: string, commentLines: string -> string): (r: string)
    ensures |r| >= |Footer| && r[|r| - |Footer|..] == Footer
    ensures var head := RewriteHeader("info.yaml", InfoYamlPath(app), InfoYamlRecoveryComment, clusterYaml, commentLines);
      |r| >= |head| && r[..|head|] == head
  {
    var head := RewriteHeader("info.yaml", InfoYamlPath(app), InfoYamlRecoveryComment, clusterYaml, commentLines);
    SuffixOfConcat(head, Footer);
    head + Footer
  }

  /** The guide above daemon.yaml. */
  function DaemonGuide(app: AppDirs, clusterYaml: string, commentLines: string -> string): (r: string)
    ensures |r| >= |Footer| && r[|r| - |Footer|..] == Footer
    ensures var head := RewriteHeader("daemon.yaml", DaemonYamlPath(app), DaemonYamlRecoveryComment, clusterYaml, commentLines);
      |r| >= |head| && r[..|head|] == head
  {
    var head := RewriteHeader("daemon.yaml", DaemonYamlPath(app), DaemonYamlRecoveryComment, clusterYaml, commentLines);
    SuffixOfConcat(head, Footer);
    head + Footer
  }

  /**
   * Saving the member-list guide unchanged gives back the member list, up to blank lines, when
   * the list holds no '#'.
   */
  lemma UnchangedClusterEdit(app: AppDirs, membersYaml: string)
    requires '#' !in membersYaml
    ensures NonSpace(Cleaned(ClusterGuide(app, membersYaml) + "\n")) == NonSpace(membersYaml)
  {
    Regroup(ClusterHeader(app), Footer, "\n", membersYaml);
    UnchangedTail(ClusterHeader(app), membersYaml);
  }

  /** A guide followed by a line holding `m` cleans to `m`, up to blank lines, when `m` holds no '#'. */
  lemma UnchangedTail(head: string, m: string)
    requires '#' !in m
    ensures NonSpace(Cleaned(head + Footer + ("\n" + m + "\n"))) == NonSpace(m)
  {
    var t := "\n" + m + "\n";
    GuideTailKept(head, t);
    assert NonSpace("\n") == "";
    NonSpaceAppend("\n", m);
    NonSpaceAppend("\n" + m, "\n");
    assert NonSpace(t) == NonSpace(m);
  }

  /**
   * Saving an info.yaml or daemon.yaml guide unchanged writes the file's own text back, up to
   * blank lines, when it holds no '#'.
   */
  lemma UnchangedRewriteKeepsText(contents: map<string, string>, path: string, guide: string)
    requires path in contents && '#' !in contents[path]
    requires |guide| >= |Footer| && guide[|guide| - |Footer|..] == Footer
    ensures NonSpace(Cleaned(EditorInput(contents, path, true, guide))) == NonSpace(contents[path])
  {
    var c := RemoveEmptyLines(contents[path]);
    InNonSpace(c, '#');
    InNonSpace(contents[path], '#');
    var head := guide[..|guide| - |Footer|];
    assert EditorInput(contents, path, true, guide) == head + Footer + ("\n" + c);
    GuideTailKept(head, "\n" + c);
    NonSpaceAppend("\n", c);
  }

  /** The cluster.yaml text the recovery parses: the serialised members, edited unless non-interactive. */
  function ClusterYamlContent(nonInteractive: bool, app: AppDirs, oldMembersYaml: string, edit: string -> Result<string>): (r: Result<string>)
    ensures nonInteractive ==> r == Ok(oldMembersYaml)
    ensures !nonInteractive ==> (r.Ok? <==> edit(ClusterGuide(app, oldMembersYaml) + "\n").Ok?)
    // An operator who saves the guide unchanged keeps the member list, up to blank lines.
    ensures !nonInteractive && '#' !in oldMembersYaml
            && edit(ClusterGuide(app, oldMembersYaml) + "\n") == Ok(ClusterGuide(app, oldMembersYaml) + "\n") ==>
      r.Ok? && NonSpace(r.value) == NonSpace(oldMembersYaml)
  {
    if nonInteractive then Ok(oldMembersYaml)
    else
      var e := edit(ClusterGuide(app, oldMembersYaml) + "\n");
      if e.Err? then Err(e.error)
      else
        if '#' in oldMembersYaml then Ok(Cleaned(e.value))
        else
          UnchangedClusterEdit(app, oldMembersYaml);
          Ok(Cleaned(e.value))
  }

  /** The edit of info.yaml: its guide lists the edited cluster members as comments. */
  function InfoEdit(contents: map<string, string>, m: AppDirs, clusterYaml: string,
                    edit: string -> Result<string>, commentLines: string -> string): Result<string>
  {
    edit(EditorInput(contents, InfoYamlPath(m), true, InfoGuide(m, clusterYaml, commentLines)))
  }

  /** The edit of daemon.yaml. */
  function DaemonEdit(contents: map<string, string>, m: AppDirs, clusterYaml: string,
                      edit: string -> Result<string>, commentLines: string -> string): Result<string>
  {
    edit(EditorInput(contents, DaemonYamlPath(m), true, DaemonGuide(m, clusterYaml, commentLines)))
  }

  /** A round over `path` that reads the file, edits it and writes it back succeeds. */
  predicate RewriteSucceeds(contents: map<string, string>, readFaults: set<string>, writeFaults: set<string>,
                            path: string, edited: Result<string>)
  {
    path in contents && path !in readFaults && edited.Ok? && path !in writeFaults
  }

  /** All three rounds of an interactive recovery succeed. */
  predicate InteractiveRoundsSucceed(contents: map<string, string>, readFaults: set<string>, writeFaults: set<string>,
                                     m: AppDirs, oldMembersYaml: string, edit: string -> Result<string>, commentLines: string -> string)
  {
    var c := ClusterYamlContent(false, m, oldMembersYaml, edit);
    c.Ok?
    && RewriteSucceeds(contents, readFaults, writeFaults, InfoYamlPath(m), InfoEdit(contents, m, c.value, edit, commentLines))
    && RewriteSucceeds(contents, readFaults, writeFaults, DaemonYamlPath(m), DaemonEdit(contents, m, c.value, edit, commentLines))
  }

  /** info.yaml and daemon.yaml are different files. */
  lemma InfoYamlIsNotDaemonYaml(app: AppDirs)
    ensures InfoYamlPath(app) != DaemonYamlPath(app)
  {
    assert "daemon.yaml"[2..][0] == 'e' != "info.yaml"[0];
    JoinedNamesDiffer(app.stateDir, app.databaseDir, "daemon.yaml", "info.yaml");
  }

  /**
   * The three editor rounds of an interactive recovery: the member list (shown, never
   * written), then info.yaml and daemon.yaml, each shown with the edited member list as
   * comments and written back. The result is the edited member list.
   */
  function InteractiveEdits(contents: map<string, string>, readFaults: set<string>, writeFaults: set<string>,
                            m: AppDirs, oldMembersYaml: string, edit: string -> Result<string>, commentLines: string -> string): (r: Round)
    // The edits succeed exactly when all three rounds do; then both files hold their cleaned edits.
    ensures r.result.Ok? <==> InteractiveRoundsSucceed(contents, readFaults, writeFaults, m, oldMembersYaml, edit, commentLines)
    ensures r.result.Ok? ==>
      var y := ClusterYamlContent(false, m, oldMembersYaml, edit).value;
      r.result.value == y
      && r.contents == contents[InfoYamlPath(m) := Cleaned(InfoEdit(contents, m, y, edit, commentLines).value)]
                               [DaemonYamlPath(m) := Cleaned(DaemonEdit(contents, m, y, edit, commentLines).value)]
    // A failed member-list round or info.yaml round writes nothing; a failed daemon.yaml round
    // leaves the info.yaml already written.
    ensures ClusterYamlContent(false, m, oldMembersYaml, edit).Err? ==> r.result.Err? && r.contents == contents
    ensures var c := ClusterYamlContent(false, m, oldMembersYaml, edit);
      c.Ok? && !RewriteSucceeds(contents, readFaults, writeFaults, InfoYamlPath(m), InfoEdit(contents, m, c.value, edit, commentLines)) ==>
        r.result.Err? && r.contents == contents
    ensures var c := ClusterYamlContent(false, m, oldMembersYaml, edit);
      c.Ok? && RewriteSucceeds(contents, readFaults, writeFaults, InfoYamlPath(m), InfoEdit(contents, m, c.value, edit, commentLines))
      && !RewriteSucceeds(contents, readFaults, writeFaults, DaemonYamlPath(m), DaemonEdit(contents, m, c.value, edit, commentLines)) ==>
        r.result.Err? && r.contents == contents[InfoYamlPath(m) := Cleaned(InfoEdit(contents, m, c.value, edit, commentLines).value)]
    ensures AgreeOutside(contents, r.contents, {InfoYamlPath(m), DaemonYamlPath(m)})
  {
    var guide := ClusterGuide(m, oldMembersYaml);
    assert EditorInput(contents, "", false, guide) == guide + "\n";
    var cluster := EditorRound(contents, readFaults, writeFaults, "", false, guide, false, edit);
    if cluster.result.Err? then Round(Err(Wrap(InteractiveEditorFailed, cluster.result.error)), cluster.contents)
    else
      var y := cluster.result.value;
      var info := EditorRound(cluster.contents, readFaults, writeFaults, InfoYamlPath(m), true, InfoGuide(m, y, commentLines), true, edit);
      if info.result.Err? then Round(Err(Wrap(InteractiveEditorFailed, info.result.error)), info.contents)
      else
        InfoYamlIsNotDaemonYaml(m);
        assert EditorInput(info.contents, DaemonYamlPath(m), true, DaemonGuide(m, y, commentLines))
            == EditorInput(contents, DaemonYamlPath(m), true, DaemonGuide(m, y, commentLines));
        var daemon := EditorRound(info.contents, readFaults, writeFaults, DaemonYamlPath(m), true, DaemonGuide(m, y, commentLines), true, edit);
        if daemon.result.Err? then Round(Err(Wrap(InteractiveEditorFailed, daemon.result.error)), daemon.contents)
        else Round(Ok(y), daemon.contents)
  }

  /** The member list the recovery parses: the serialised members, edited unless non-interactive. */
  function RecoveryContent(nonInteractive: bool, contents: map<string, string>, readFaults: set<string>, writeFaults: set<string>,
                           m: AppDirs, oldMembersYaml: string, edit: string -> Result<string>, commentLines: string -> string): Result<string>
  {
    if nonInteractive then Ok(oldMembersYaml)
    else InteractiveEdits(contents, readFaults, writeFaults, m, oldMembersYaml, edit, commentLines).result
  }

  /**
   * The recovery got through every step: the app, the member list, its serialisation, the
   * editor rounds unless non-interactive, the parse, and microcluster's `RecoverFromQuorumLoss`,
   * which returned `tarball`.
   */
  predicate RecoveredTo(nonInteractive: bool, app: Result<AppDirs>, members: Result<seq<DqliteMember>>,
                        marshal: seq<DqliteMember> -> Result<string>, unmarshal: string -> Result<seq<DqliteMember>>,
                        edit: string -> Result<string>, commentLines: string -> string, recover: seq<DqliteMember> -> Result<string>,
                        contents: map<string, string>, readFaults: set<string>, writeFaults: set<string>, tarball: string)
  {
    app.Ok? && members.Ok? && marshal(members.value).Ok?
    && var content := RecoveryContent(nonInteractive, contents, readFaults, writeFaults, app.value, marshal(members.value).value, edit, commentLines);
    content.Ok? && unmarshal(content.value).Ok? && recover(unmarshal(content.value).value) == Ok(tarball)
  }

  /** Prefixes of the errors the recovery reports, each followed by ": " and the cause. */
  const AppInitFailed: string := "could not initialize microcluster app, error"
  const MembersReadFailed: string := "could not retrieve K8sd cluster members, error"
  const MembersMarshalFailed: string := "could not serialize cluster members, error"
  const ClusterYamlParseFailed: string := "couldn't parse cluster.yaml, error"
  const RecoveryFailed: string := "k8sd recovery failed, error"
  const InteractiveEditorFailed: string := "interactive text editor failed, error"

  /** `recoverK8sd`'s editor rounds, as InteractiveEdits states them. Returns the edited member list. */
  method EditInteractively(files: Files, m: AppDirs, oldMembersYaml: string,
                           edit: string -> Result<string>, commentLines: string -> string)
    returns (r: Result<string>)
    modifies files`contents
    ensures var edits := InteractiveEdits(old(files.contents), files.readFaults, files.writeFaults, m, oldMembersYaml, edit, commentLines);
      r == edits.result && files.contents == edits.contents
  {
    var edited := YamlEditorGuide(files, "", false, ClusterGuide(m, oldMembersYaml), false, edit);
    if edited.Err? {
      return Err(Wrap(InteractiveEditorFailed, edited.error));
    }
    var clusterYamlContent := edited.value;
    var info := YamlEditorGuide(files, InfoYamlPath(m), true, InfoGuide(m, clusterYamlContent, commentLines), true, edit);
    if info.Err? {
      return Err(Wrap(InteractiveEditorFailed, info.error));
    }
    var daemon := YamlEditorGuide(files, DaemonYamlPath(m), true, DaemonGuide(m, clusterYamlContent, commentLines), true, edit);
    if daemon.Err? {
      return Err(Wrap(InteractiveEditorFailed, daemon.error));
    }
    return Ok(clusterYamlContent);
  }

  /**
   * `recoverK8sd`. `app` is the creation of the microcluster app, `members` what it reads
   * from cluster.yaml and the trust store, `marshal`/`unmarshal` the YAML codec, `edit` the
   * text editor, `commentLines` the comment-prefixing helper, and `recover` microcluster's
   * quorum-loss recovery, which returns the tarball path.
   */
  method RecoverK8sd(nonInteractive: bool, app: Result<AppDirs>, members: Result<seq<DqliteMember>>,
                     marshal: seq<DqliteMember> -> Result<string>, unmarshal: string -> Result<seq<DqliteMember>>,
                     edit: string -> Result<string>, commentLines: string -> string,
                     recover: seq<DqliteMember> -> Result<string>, files: Files)
    returns (tarball: string, err: Outcome)
    modifies files`contents
    // The recovery succeeds exactly when every step does, and then answers microcluster's tarball.
    ensures err.Pass? ==> RecoveredTo(nonInteractive, app, members, marshal, unmarshal, edit, commentLines, recover,
                                      old(files.contents), files.readFaults, files.writeFaults, tarball)
    ensures forall t ::
      RecoveredTo(nonInteractive, app, members, marshal, unmarshal, edit, commentLines, recover,
                  old(files.contents), files.readFaults, files.writeFaults, t)
      ==> err.Pass? && tarball == t
    ensures err.Fail? ==> tarball == ""
    // Each failing step answers its own error.
    ensures app.Err? ==> err == Fail(Wrap(AppInitFailed, app.error))
    ensures app.Ok? && members.Err? ==> err == Fail(Wrap(MembersReadFailed, members.error))
    ensures app.Ok? && members.Ok? && marshal(members.value).Err? ==> err == Fail(Wrap(MembersMarshalFailed, marshal(members.value).error))
    ensures app.Ok? && members.Ok? && marshal(members.value).Ok? ==>
      var content := RecoveryContent(nonInteractive, old(files.contents), files.readFaults, files.writeFaults,
                                     app.value, marshal(members.value).value, edit, commentLines);
      && (content.Err? ==> err == Fail(content.error))
      && (content.Ok? && unmarshal(content.value).Err? ==> err == Fail(Wrap(ClusterYamlParseFailed, unmarshal(content.value).error)))
      && (content.Ok? && unmarshal(content.value).Ok? && recover(unmarshal(content.value).value).Err? ==>
            err == Fail(Wrap(RecoveryFailed, recover(unmarshal(content.value).value).error)))
    // The files are those the editor rounds leave; without prompts no file is written.
    ensures files.contents ==
      if !nonInteractive && app.Ok? && members.Ok? && marshal(members.value).Ok?
      then InteractiveEdits(old(files.contents), files.readFaults, files.writeFaults, app.value, marshal(members.value).value, edit, commentLines).contents
      else old(files.contents)
    // cluster.yaml is never written here: only info.yaml and daemon.yaml may change.
    ensures app.Ok? ==> AgreeOutside(old(files.contents), files.contents, {InfoYamlPath(app.value), DaemonYamlPath(app.value)})
  {
    if app.Err? {
      return "", Fail(Wrap(AppInitFailed, app.error));
    }
    var m := app.value;
    if members.Err? {
      return "", Fail(Wrap(MembersReadFailed, members.error));
    }
    var oldMembersYaml := marshal(members.value);
    if oldMembersYaml.Err? {
      return "", Fail(Wrap(MembersMarshalFailed, oldMembersYaml.error));
    }
    var clusterYamlContent := oldMembersYaml.value;
    if !nonInteractive {
      var edited := EditInteractively(files, m, oldMembersYaml.value, edit, commentLines);
      if edited.Err? {
        return "", Fail(edited.error);
      }
      clusterYamlContent := edited.value;
    }
    var newMembers := unmarshal(clusterYamlContent);
    if newMembers.Err? {
      return "", Fail(Wrap(ClusterYamlParseFailed, newMembers.error));
    }
    var recovered := recover(newMembers.value);
    if recovered.Err? {
      return "", Fail(Wrap(RecoveryFailed, recovered.error));
    }
    return recovered.value, Pass;
  }
}
