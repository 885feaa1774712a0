/** The pure string helpers of utils.py: the folder name for a topic, the
    markdown clean-up applied to generated slides, and the slide-deck
    configuration header. (`generate_ffmpeg_command` is in module Ffmpeg.) */
module Utils {
  import opened Strings

  // ---------------------------------------------------------------------
  // get_safe_foldername: topic.replace(" ", "_").lower()

  /** Lower-casing of one character, for ASCII letters. */
  function LowerChar(c: char): char {
    if 'A' <= c <= 'Z' then (c as int + 32) as char else c
  }

  /** `s.replace(a, b)` for a one-character `a`: every `a` becomes `b`. */
  function ReplaceChar(s: string, a: char, b: char): (r: string)
    ensures |r| == |s|
    ensures forall i :: 0 <= i < |s| ==> r[i] == (if s[i] == a then b else s[i])
  {
    if |s| == 0 then [] else [if s[0] == a then b else s[0]] + ReplaceChar(s[1..], a, b)
  }

  /** `s.lower()`, character by character. */
  function Lower(s: string): (r: string)
    ensures |r| == |s|
    ensures forall i :: 0 <= i < |s| ==> r[i] == LowerChar(s[i])
  {
    if |s| == 0 then [] else [LowerChar(s[0])] + Lower(s[1..])
  }

  /** The directory name used for a presentation on `topic`. */
  function SafeFolderName(topic: string): (r: string)
    ensures |r| == |topic|
    ensures forall i :: 0 <= i < |r| ==> r[i] == LowerChar(if topic[i] == ' ' then '_' else topic[i])
  {
    Lower(ReplaceChar(topic, ' ', '_'))
  }

  /** The folder name contains no space and no upper-case ASCII letter. */
  lemma SafeFolderNameIsSafe(topic: string)
    ensures forall i :: 0 <= i < |SafeFolderName(topic)| ==>
              SafeFolderName(topic)[i] != ' ' && !('A' <= SafeFolderName(topic)[i] <= 'Z')
  {
  }

  /** Making a folder name safe twice is making it safe once. */
  lemma SafeFolderNameIdempotent(topic: string)
    ensures SafeFolderName(SafeFolderName(topic)) == SafeFolderName(topic)
  {
    var once := SafeFolderName(topic);
    var twice := SafeFolderName(once);
    assert forall i :: 0 <= i < |once| ==> twice[i] == once[i];
  }

  // ---------------------------------------------------------------------
  // sanitize_markdown

  /** Python's `\s` for a `str` pattern: the characters `str.isspace()` accepts. */
  predicate IsSpace(c: char) {
    var n := c as int;
    (9 <= n <= 13) || (28 <= n <= 32) || n == 0x85 || n == 0xA0 || n == 0x1680
    || (0x2000 <= n <= 0x200A) || n == 0x2028 || n == 0x2029 || n == 0x202F
    || n == 0x205F || n == 0x3000
  }

  /** Length of the match of `(#{1,2})\s` at the start of `s`, or 0: the
      greedy `##` is tried first, then the single `#`. */
  function HeadingMatch(s: string): (m: nat)
    ensures m == 0 || m == 2 || m == 3
    ensures m > 0 ==> m <= |s| && IsSpace(s[m - 1]) && forall i :: 0 <= i < m - 1 ==> s[i] == '#'
    ensures |s| >= 2 && s[0] == '#' && IsSpace(s[1]) ==> m == 2
    ensures |s| >= 3 && s[0] == '#' && s[1] == '#' && IsSpace(s[2]) ==> m == 3
  {
    if |s| >= 3 && s[0] == '#' && s[1] == '#' && IsSpace(s[2]) then 3
    else if |s| >= 2 && s[0] == '#' && IsSpace(s[1]) then 2
    else 0
  }

  /** `re.sub(r"^(#{1,2})\s", "### ", s, flags=re.M)` on the rest `s` of the
      text, where `atLineStart` says whether `^` holds at its first
      character (the text's start, or just after a newline). A match may
      consume a newline as its `\s`; the next position is then still a line
      start. */
  function Headings(s: string, atLineStart: bool): (r: string)
    ensures |r| >= |s|
    decreases |s|
  {
    if |s| == 0 then []
    else if atLineStart && HeadingMatch(s) > 0 then
      var m := HeadingMatch(s);
      "### " + Headings(s[m..], s[m - 1] == '\n')
    else [s[0]] + Headings(s[1..], s[0] == '\n')
  }

  function RewriteHeadings(text: string): string {
    Headings(text, true)
  }

  /** A text without `#` is left as it is. */
  lemma {:induction false} NoHashUnchanged(s: string, atLineStart: bool)
    requires forall i :: 0 <= i < |s| ==> s[i] != '#'
    ensures Headings(s, atLineStart) == s
    decreases |s|
  {
    if |s| > 0 {
      assert HeadingMatch(s) == 0;
      NoHashUnchanged(s[1..], s[0] == '\n');
      assert [s[0]] + s[1..] == s;
    }
  }

  /** Inside a line nothing is rewritten. */
  lemma {:induction false} MidLineUnchanged(w: string, rest: string)
    requires forall i :: 0 <= i < |w| ==> w[i] != '\n'
    ensures Headings(w + rest, false) == w + Headings(rest, false)
  {
    if |w| > 0 {
      assert (w + rest)[1..] == w[1..] + rest;
      MidLineUnchanged(w[1..], rest);
    } else {
      assert w + rest == rest;
    }
  }

  /** A line of one or two `#` and a whitespace character starts over as
      `### `; the whitespace is replaced, the rest is rewritten as usual. */
  lemma HeadingLineRewritten(hashes: string, ws: char, rest: string)
    requires hashes == "#" || hashes == "##"
    requires IsSpace(ws)
    ensures Headings(hashes + [ws] + rest, true) == "### " + Headings(rest, ws == '\n')
  {
    var s := hashes + [ws] + rest;
    assert s[|hashes| + 1..] == rest;
  }

  /** A line that the pattern does not match at its start (for one, a line
      starting with `###`) is left exactly as it is, up to and including
      its newline. */
  lemma UnmatchedLineKept(line: string, rest: string)
    requires |line| > 0 && forall i :: 0 <= i < |line| ==> line[i] != '\n'
    requires HeadingMatch(line + "\n" + rest) == 0
    ensures Headings(line + "\n" + rest, true) == line + "\n" + Headings(rest, true)
  {
    var s := line + "\n" + rest;
    assert s[1..] == line[1..] + ("\n" + rest);
    MidLineUnchanged(line[1..], "\n" + rest);
    assert ("\n" + rest)[1..] == rest;
  }

  /** A line starting with `###` is not touched, whatever follows it: a
      newline and more text, or nothing when it is the text's last line. */
  lemma TripleHashLineKept(line: string, rest: string)
    requires |line| >= 3 && line[..3] == "###"
    requires forall i :: 0 <= i < |line| ==> line[i] != '\n'
    ensures Headings(line + rest, true) == line + Headings(rest, false)
  {
    var s := line + rest;
    assert s[0] == line[0] == '#' && s[1] == line[1] == '#' && s[2] == line[2] == '#';
    assert HeadingMatch(s) == 0;
    assert s[1..] == line[1..] + rest;
    MidLineUnchanged(line[1..], rest);
    calc {
      Headings(s, true);
      [s[0]] + Headings(s[1..], false);
      [line[0]] + (line[1..] + Headings(rest, false));
      { assert [line[0]] + line[1..] == line; }
      line + Headings(rest, false);
    }
  }

  /** Python's `s.replace(pat, rep)`: leftmost, non-overlapping occurrences
      of `pat`, scanned left to right. */
  function ReplaceAll(s: string, pat: string, rep: string): (r: string)
    requires |pat| > 0
    ensures |rep| == |pat| ==> |r| == |s|
    decreases |s|
  {
    if |s| < |pat| then s
    else if s[..|pat|] == pat then rep + ReplaceAll(s[|pat|..], pat, rep)
    else [s[0]] + ReplaceAll(s[1..], pat, rep)
  }

  /** A text in which `pat` does not occur is left as it is. */
  lemma {:induction false} ReplaceAllAbsent(s: string, pat: string, rep: string)
    requires |pat| > 0 && Free(s, pat)
    ensures ReplaceAll(s, pat, rep) == s
    decreases |s|
  {
    if |s| >= |pat| {
      assert !OccursAt(s, pat, 0);
      FreeTail(s, pat);
      ReplaceAllAbsent(s[1..], pat, rep);
      assert [s[0]] + s[1..] == s;
    }
  }

  /** A text free of `pat` has a tail free of it. */
  lemma FreeTail(s: string, pat: string)
    requires |s| > 0 && Free(s, pat)
    ensures Free(s[1..], pat)
  {
    forall i: nat | i <= |s[1..]| ensures !OccursAt(s[1..], pat, i) {
      assert !OccursAt(s, pat, i + 1);
      if i + |pat| <= |s[1..]| {
        assert s[1..][i..i + |pat|] == s[i + 1..i + 1 + |pat|];
      }
    }
  }

  const FlowchartTD := "flowchart TD"
  const FlowchartLR := "flowchart LR"

  /** `text.replace("flowchart TD", "flowchart LR")`; the replacement keeps
      the length. */
  function FlowchartLeftToRight(s: string): (r: string)
    ensures |r| == |s|
  {
    ReplaceAll(s, FlowchartTD, FlowchartLR)
  }

  /** The replacement never changes the first character (both strings start with `f`). */
  lemma FirstCharKept(t: string)
    requires |t| > 0
    ensures |FlowchartLeftToRight(t)| > 0 && FlowchartLeftToRight(t)[0] == t[0]
  {
    var n := |FlowchartTD|;
    if |t| >= n && t[..n] == FlowchartTD {
      assert t[0] == t[..n][0];
    }
  }

  /** If the rewritten text starts with `w`, and `w` has no `f`, the text
      did too (no replacement can begin inside `w`). */
  lemma {:induction false} PrefixWithoutF(t: string, w: string)
    requires forall i :: 0 <= i < |w| ==> w[i] != 'f'
    requires |w| <= |FlowchartLeftToRight(t)| && FlowchartLeftToRight(t)[..|w|] == w
    ensures |w| <= |t| && t[..|w|] == w
    decreases |t|
  {
    var r := FlowchartLeftToRight(t);
    var n := |FlowchartTD|;
    if |w| > 0 && |t| >= n {
      FirstCharKept(t);
      assert t[..n][0] == t[0] == r[0] == w[0] != 'f';
      assert t[..n] != FlowchartTD;
      assert r == [t[0]] + FlowchartLeftToRight(t[1..]);
      assert FlowchartLeftToRight(t[1..])[..|w| - 1] == w[1..];
      PrefixWithoutF(t[1..], w[1..]);
      assert t[..|w|] == [t[0]] + t[1..][..|w| - 1];
    }
  }

  /** A replacement followed by text free of `flowchart TD` is free of it:
      `flowchart LR` contains no `f` after its first character. */
  lemma ReplacedFree(rest: string)
    requires Free(rest, FlowchartTD)
    ensures Free(FlowchartLR + rest, FlowchartTD)
  {
    var r := FlowchartLR + rest;
    var n := |FlowchartTD|;
    forall i: nat | i <= |r| ensures !OccursAt(r, FlowchartTD, i) {
      if i >= n && i + n <= |r| {
        assert r[i..i + n] == rest[i - n..i - n + n];
        assert !OccursAt(rest, FlowchartTD, i - n);
      } else if 0 < i < n && i + n <= |r| {
        assert r[i..i + n][0] == r[i] == FlowchartLR[i] != 'f';
      } else if i == 0 {
        assert r[..n] == FlowchartLR != FlowchartTD;
      }
    }
  }

  /** Keeping a character in front of a rewritten tail free of
      `flowchart TD` creates none, since the text did not start with one. */
  lemma KeptFree(s: string)
    requires |s| >= |FlowchartTD| && s[..|FlowchartTD|] != FlowchartTD
    requires Free(FlowchartLeftToRight(s[1..]), FlowchartTD)
    ensures Free(FlowchartLeftToRight(s), FlowchartTD)
  {
    var r := FlowchartLeftToRight(s);
    var rest := FlowchartLeftToRight(s[1..]);
    var n := |FlowchartTD|;
    assert r == [s[0]] + rest;
    forall i: nat | i <= |r| ensures !OccursAt(r, FlowchartTD, i) {
      if i >= 1 && i + n <= |r| {
        assert r[i..i + n] == rest[i - 1..i - 1 + n];
        assert !OccursAt(rest, FlowchartTD, i - 1);
      } else if i == 0 && n <= |r| {
        var w := FlowchartTD[1..];
        if rest[..|w|] == w {
          PrefixWithoutF(s[1..], w);
          assert s[..n] == [s[0]] + s[1..][..|w|];
        }
        assert r[..n] == [s[0]] + rest[..|w|];
      }
    }
  }

  /** After the replacement no `flowchart TD` is left. */
  lemma {:induction false} NoFlowchartTD(s: string)
    ensures Free(FlowchartLeftToRight(s), FlowchartTD)
    decreases |s|
  {
    var n := |FlowchartTD|;
    if |s| < n {
      assert |FlowchartLeftToRight(s)| < n;
    } else if s[..n] == FlowchartTD {
      NoFlowchartTD(s[n..]);
      ReplacedFree(FlowchartLeftToRight(s[n..]));
      assert FlowchartLeftToRight(s) == FlowchartLR + FlowchartLeftToRight(s[n..]);
    } else {
      NoFlowchartTD(s[1..]);
      KeptFree(s);
    }
  }

  /** "flowchart TD" has no newline, so appending newlines creates none. */
  lemma {:induction false} FreeAfterNewlines(r: string)
    requires Free(r, FlowchartTD)
    ensures Free(r + "\n\n", FlowchartTD)
  {
    var t := r + "\n\n";
    var n := |FlowchartTD|;
    forall i: nat | i <= |t| ensures !OccursAt(t, FlowchartTD, i) {
      if i + n <= |r| {
        assert t[i..i + n] == r[i..i + n];
        assert !OccursAt(r, FlowchartTD, i);
      } else if i + n <= |t| {
        assert t[i + n - 1] == '\n' != FlowchartTD[n - 1];
      }
    }
  }

  /** `sanitize_markdown(text)`. The stage that drops mermaid `Note over`
      lines and the stage that rewrites image links are regular-expression
      rewrites that are not modelled; they are given as `dropNotes` and
      `relinkImages`. The output always ends in a blank line and never
      contains `flowchart TD`. */
  function SanitizeMarkdown(text: string, dropNotes: string -> string, relinkImages: string -> string): (r: string)
    ensures |r| >= 2 && r[|r| - 2..] == "\n\n"
    ensures Free(r, FlowchartTD)
  {
    var rewritten := FlowchartLeftToRight(relinkImages(RewriteHeadings(dropNotes(text))));
    NoFlowchartTD(relinkImages(RewriteHeadings(dropNotes(text))));
    FreeAfterNewlines(rewritten);
    rewritten + "\n\n"
  }

  // ---------------------------------------------------------------------
  // get_presentation_config

  /** The configuration header put in front of each slide deck: a blank
      first line, the three settings one per line as markdown comments
      (lines the slide renderer reads and does not display), and a blank
      line. */
  function GetPresentationConfig(): (r: string)
    ensures |r| == 105 && r[0] == '\n'
    ensures r[1..43] == "[comment]: # (CODE_THEME = base16/zenburn)" && r[43] == '\n'
    ensures r[44..73] == "[comment]: # (controls: true)" && r[73] == '\n'
    ensures r[74..103] == "[comment]: # (keyboard: true)" && r[103..] == "\n\n"
  {
    "\n" + "[comment]: # (CODE_THEME = base16/zenburn)" + "\n" + "[comment]: # (controls: true)" + "\n"
    + "[comment]: # (keyboard: true)" + "\n\n"
  }
}
