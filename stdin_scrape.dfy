/** What `Critter::readStdIn` makes of standard input: the stream is cut into lines by
    `std::getline`, the first line decides whether the whole input is a patch, and the last line
    starting with "Committed" gives a changeset. */
module StdinScrape {
  import opened Wrappers

  predicate StartsWith(s: string, prefix: string) {
    |prefix| <= |s| && s[..|prefix|] == prefix
  }

  predicate IsDigit(c: char) {
    '0' <= c <= '9'
  }

  /** A line (with its newline put back) that makes the input a patch. */
  predicate IsPatchHeader(s: string) {
    StartsWith(s, "diff") || StartsWith(s, "Index:")
  }

  /** A line (with its newline put back) that reports a commit. */
  predicate IsCommitLine(s: string) {
    StartsWith(s, "Committed")
  }

  /** One `std::getline` on the unread input. `Some((line, rest))` when a newline ends the line;
      `None` when the stream ends first: the loop's `eof()` test then stops it, so a final line
      without a newline is read but never processed. */
  function GetLine(input: string): (r: Option<(string, string)>)
    ensures r.None? <==> '\n' !in input
    ensures r.Some? ==> input == r.value.0 + "\n" + r.value.1 && '\n' !in r.value.0
    decreases |input|
  {
    if input == [] then None
    else if input[0] == '\n' then Some(([], input[1..]))
    else match GetLine(input[1..])
      case None => None
      case Some((line, rest)) => Some(([input[0]] + line, rest))
  }

  /** The lines the `while (!getline(...).eof())` loop processes, without their newlines. */
  function CompleteLines(input: string): (lines: seq<string>)
    decreases |input|
  {
    match GetLine(input)
    case None => []
    case Some((line, rest)) => [line] + CompleteLines(rest)
  }

  /** The lines, each followed by a newline, one after the other. */
  function Joined(lines: seq<string>): string {
    if lines == [] then "" else lines[0] + "\n" + Joined(lines[1..])
  }

  lemma {:induction false} JoinedAppend(lines: seq<string>, line: string)
    ensures Joined(lines + [line]) == Joined(lines) + line + "\n"
  {
    if lines == [] {
      assert lines + [line] == [line];
    } else {
      assert (lines + [line])[1..] == lines[1..] + [line];
      JoinedAppend(lines[1..], line);
    }
  }

  /** `input` starts with `c`, a newline-terminated (or empty) text, and has no newline after it. */
  predicate LongestTerminatedPrefix(input: string, c: string) {
    |c| <= |input| && input[..|c|] == c && '\n' !in input[|c|..] && (c == "" || c[|c| - 1] == '\n')
  }

  /** Putting a complete line in front of both keeps that relation. */
  lemma PrefixAfterLine(head: string, rest: string, c: string)
    requires head != "" && head[|head| - 1] == '\n'
    requires LongestTerminatedPrefix(rest, c)
    ensures LongestTerminatedPrefix(head + rest, head + c)
  {
    var input := head + rest;
    assert input[|head| + |c|..] == rest[|c|..];
    assert input[..|head| + |c|] == head + rest[..|c|];
  }

  /** The text the loop captures is the longest prefix of the input that ends in a newline:
      only a trailing piece without a newline is lost. */
  lemma {:induction false} CapturedPrefix(input: string)
    ensures LongestTerminatedPrefix(input, Joined(CompleteLines(input)))
    decreases |input|
  {
    var g := GetLine(input);
    if g.Some? {
      var line, rest := g.value.0, g.value.1;
      var head := line + "\n";
      assert input == head + rest;
      CapturedPrefix(rest);
      var ls := CompleteLines(rest);
      assert CompleteLines(input) == [line] + ls;
      assert ([line] + ls)[1..] == ls;
      assert Joined(CompleteLines(input)) == head + Joined(ls);
      PrefixAfterLine(head, rest, Joined(ls));
    }
  }

  /** When the input ends with a newline (or is empty), nothing is lost. */
  lemma WholeStreamCaptured(input: string)
    requires input == "" || input[|input| - 1] == '\n'
    ensures Joined(CompleteLines(input)) == input
  {
    CapturedPrefix(input);
  }

  /** Index of the last line (newline put back) that starts with "Committed", or -1. */
  function LastCommitIndex(lines: seq<string>): (k: int)
    ensures -1 <= k < |lines|
    ensures 0 <= k ==> IsCommitLine(lines[k] + "\n")
    ensures forall j :: k < j < |lines| ==> !IsCommitLine(lines[j] + "\n")
  {
    if lines == [] then -1
    else if IsCommitLine(lines[|lines| - 1] + "\n") then |lines| - 1
    else LastCommitIndex(lines[..|lines| - 1])
  }

  /** What the loop leaves in `commitRevision`: the revision extracted from the last commit line,
      or the empty string when there is none. */
  function LastRevision(lines: seq<string>, extractRevision: string -> string): string {
    var k := LastCommitIndex(lines);
    if k < 0 then "" else extractRevision(lines[k] + "\n")
  }

  /** Processing one more line: a commit line replaces the revision, any other line keeps it. */
  lemma LastRevisionAppend(lines: seq<string>, line: string, extractRevision: string -> string)
    ensures LastRevision(lines + [line], extractRevision) ==
      if IsCommitLine(line + "\n") then extractRevision(line + "\n") else LastRevision(lines, extractRevision)
  {
  }

  /** What standard input adds to the Review: at most one patch and at most one changeset. */
  datatype Scraped = Scraped(patch: Option<string>, changeset: Option<string>)

  /** The effect of `readStdIn` on the processed lines. */
  function Scrape(lines: seq<string>, extractRevision: string -> string): Scraped {
    var revision := LastRevision(lines, extractRevision);
    Scraped(
      if |lines| > 0 && IsPatchHeader(lines[0] + "\n") then Some(Joined(lines)) else None,
      if revision == "" then None else Some(revision))
  }

  /** Lines after the first never change whether the input is a patch. */
  lemma PatchDecidedByFirstLine(lines: seq<string>, more: seq<string>, extractRevision: string -> string)
    requires |lines| > 0
    ensures Scrape(lines + more, extractRevision).patch.Some? == Scrape(lines, extractRevision).patch.Some?
  {
  }

  /** A newline-free line starts with a newline-free prefix exactly when the text it heads does. */
  lemma {:induction false} FirstLinePrefix(line: string, rest: string, prefix: string)
    requires '\n' !in line && '\n' !in prefix
    ensures StartsWith(line + "\n", prefix) <==> StartsWith(line + "\n" + rest, prefix)
  {
    var s, t := line + "\n", line + "\n" + rest;
    if |prefix| <= |s| {
      assert t[..|prefix|] == s[..|prefix|];
    } else {
      assert t[|line|] == '\n';
    }
  }

  /** On a stream with at least one complete line, the patch is detected exactly when the stream
      itself starts with "diff" or "Index:". */
  lemma PatchDetectedFromStreamStart(input: string, extractRevision: string -> string)
    requires '\n' in input
    ensures Scrape(CompleteLines(input), extractRevision).patch.Some? <==> IsPatchHeader(input)
  {
    var g := GetLine(input);
    var line, rest := g.value.0, g.value.1;
    assert CompleteLines(input)[0] == line;
    FirstLinePrefix(line, rest, "diff");
    FirstLinePrefix(line, rest, "Index:");
  }

  /** A detected patch is the whole captured text, hence the whole stream when the stream ends
      with a newline. */
  lemma PatchIsCapturedStream(input: string, extractRevision: string -> string)
    ensures var p := Scrape(CompleteLines(input), extractRevision).patch;
      && (p.Some? ==> p.value == Joined(CompleteLines(input)))
      && (p.Some? && input[|input| - 1] == '\n' ==> p.value == input)
  {
    var p := Scrape(CompleteLines(input), extractRevision).patch;
    if p.Some? && input[|input| - 1] == '\n' {
      WholeStreamCaptured(input);
    }
  }

  /** The last commit line wins: earlier lines matter only when the later ones hold none. */
  lemma {:induction false} LastCommitWins(lines: seq<string>, more: seq<string>)
    ensures LastCommitIndex(lines + more) ==
      if LastCommitIndex(more) >= 0 then |lines| + LastCommitIndex(more) else LastCommitIndex(lines)
    decreases |more|
  {
    if more == [] {
      assert lines + more == lines;
    } else {
      var m := |more| - 1;
      assert (lines + more)[|lines + more| - 1] == more[m];
      assert (lines + more)[..|lines + more| - 1] == lines + more[..m];
      if !IsCommitLine(more[m] + "\n") {
        LastCommitWins(lines, more[..m]);
      }
    }
  }

  /** Hence the changeset scraped from a concatenation is the later part's, when it has one. */
  lemma ChangesetFromLastCommit(lines: seq<string>, more: seq<string>, extractRevision: string -> string)
    ensures (exists i :: 0 <= i < |more| && IsCommitLine(more[i] + "\n")) ==>
      Scrape(lines + more, extractRevision).changeset == Scrape(more, extractRevision).changeset
    ensures (forall i :: 0 <= i < |more| ==> !IsCommitLine(more[i] + "\n")) ==>
      Scrape(lines + more, extractRevision).changeset == Scrape(lines, extractRevision).changeset
  {
    LastCommitWins(lines, more);
    var k := LastCommitIndex(more);
    if k >= 0 {
      assert (lines + more)[|lines| + k] == more[k];
    }
  }

  /** Index of the last digit of `s`, or -1. */
  function LastDigitIndex(s: string): (k: int)
    ensures -1 <= k < |s|
    ensures 0 <= k ==> IsDigit(s[k])
    ensures forall j :: k < j < |s| ==> !IsDigit(s[j])
  {
    if s == [] then -1
    else if IsDigit(s[|s| - 1]) then |s| - 1
    else LastDigitIndex(s[..|s| - 1])
  }

  /** `s.replace(QRegExp(".*(\\d+).*"), "\\1")` as written. The greedy leading `.*` leaves a single
      digit to the group, so a string with digits becomes its last digit; a string without any
      does not match and is left unchanged. */
  function GreedyRevision(s: string): (r: string)
    ensures (exists i :: 0 <= i < |s| && IsDigit(s[i])) ==>
      |r| == 1 && IsDigit(r[0]) && exists i :: 0 <= i < |s| && s[i] == r[0] && forall j :: i < j < |s| ==> !IsDigit(s[j])
    ensures (forall i :: 0 <= i < |s| ==> !IsDigit(s[i])) ==> r == s
  {
    var k := LastDigitIndex(s);
    if k < 0 then s else [s[k]]
  }

  /** Index of the first digit of `s`, or -1. */
  function FirstDigitIndex(s: string): (k: int)
    ensures -1 <= k < |s|
    ensures 0 <= k ==> IsDigit(s[k])
    ensures forall j :: 0 <= j < |s| && (k < 0 || j < k) ==> !IsDigit(s[j])
  {
    if s == [] then -1
    else if IsDigit(s[0]) then 0
    else
      var k := FirstDigitIndex(s[1..]);
      if k < 0 then -1 else k + 1
  }

  /** The longest prefix of `s` made of digits. */
  function DigitRun(s: string): (r: string)
    ensures |r| <= |s| && r == s[..|r|]
    ensures forall i :: 0 <= i < |r| ==> IsDigit(r[i])
    ensures |r| < |s| ==> !IsDigit(s[|r|])
  {
    if s == [] || !IsDigit(s[0]) then "" else [s[0]] + DigitRun(s[1..])
  }

  /** The revision number the commit line evidently carries: its first whole run of digits
      ("Committed revision 42." gives "42"); a line without digits is kept, as the source does. */
  function FirstDigitRun(s: string): (r: string)
    ensures (forall i :: 0 <= i < |s| ==> !IsDigit(s[i])) ==> r == s
    ensures (exists i :: 0 <= i < |s| && IsDigit(s[i])) ==>
      var k := FirstDigitIndex(s);
      && r != ""
      && (forall i :: 0 <= i < |r| ==> IsDigit(r[i]))
      && k + |r| <= |s| && s[k..k + |r|] == r
      && (forall j :: 0 <= j < k ==> !IsDigit(s[j]))
      && (k + |r| < |s| ==> !IsDigit(s[k + |r|]))
  {
    var k := FirstDigitIndex(s);
    if k < 0 then s else DigitRun(s[k..])
  }

  /** As written, a line `pre + num + post` whose only digits are the run `num` yields just the
      last digit of `num`. */
  lemma GreedyKeepsLastDigit(pre: string, num: string, post: string)
    requires forall i :: 0 <= i < |pre| ==> !IsDigit(pre[i])
    requires num != [] && forall i :: 0 <= i < |num| ==> IsDigit(num[i])
    requires forall i :: 0 <= i < |post| ==> !IsDigit(post[i])
    ensures GreedyRevision(pre + num + post) == [num[|num| - 1]]
  {
    var s := pre + num + post;
    var k := LastDigitIndex(s);
    assert s[|pre| + |num| - 1] == num[|num| - 1];
    assert k == |pre| + |num| - 1;
  }

  /** Corrected, the same line yields the whole run `num`. */
  lemma RevisionNumberExtracted(pre: string, num: string, post: string)
    requires forall i :: 0 <= i < |pre| ==> !IsDigit(pre[i])
    requires num != [] && forall i :: 0 <= i < |num| ==> IsDigit(num[i])
    requires post == [] || !IsDigit(post[0])
    ensures FirstDigitRun(pre + num + post) == num
  {
    var s := pre + num + post;
    assert s[|pre|] == num[0];
    assert FirstDigitIndex(s) == |pre|;
    var t := s[|pre|..];
    assert t == num + post;
    assert forall i :: 0 <= i < |num| ==> IsDigit(t[i]);
    assert |num| < |t| ==> t[|num|] == post[0];
    var r := DigitRun(t);
  }

  /** A Subversion commit line "Committed revision 42 to trunk.": as written the changeset is
      "2", corrected it is "42". */
  lemma CommitLineAsWritten()
    ensures Scrape(["Committed revision 42 to trunk."], GreedyRevision).changeset == Some("2")
  {
    var line := "Committed revision 42 to trunk.";
    assert IsCommitLine(line + "\n");
    assert LastCommitIndex([line]) == 0;
    GreedyKeepsLastDigit("Committed revision ", "42", " to trunk.\n");
    assert line + "\n" == "Committed revision " + "42" + " to trunk.\n";
  }

  lemma CommitLineCorrected()
    ensures Scrape(["Committed revision 42 to trunk."], FirstDigitRun).changeset == Some("42")
  {
    var line := "Committed revision 42 to trunk.";
    assert IsCommitLine(line + "\n");
    assert LastCommitIndex([line]) == 0;
    RevisionNumberExtracted("Committed revision ", "42", " to trunk.\n");
    assert line + "\n" == "Committed revision " + "42" + " to trunk.\n";
  }
}
