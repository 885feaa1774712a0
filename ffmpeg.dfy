/** `generate_ffmpeg_command` of utils.py: the FFmpeg command line that
    joins the per-slide clips with `xfade` transitions.

    `FfmpegCommand` says declaratively what the command is; the method
    `GenerateFfmpegCommand` builds it the way the source does (two loops
    growing the filter text and the list of transitions) and is proved to
    produce exactly that. The lemmas describe the filter graph: its
    `;`-separated layout, the streams each filter reads and writes, and
    when the streams named by the final `-map` exist. */
module Ffmpeg {
  import opened Strings

  /** The stream labels of the filter graph. */
  datatype Label =
    | InputVideo(file: int)   // [i:v:0], the video of input i
    | InputAudio(file: int)   // [i:a:0], the audio of input i
    | Trimmed(file: int)      // [vi]
    | OutVideo(k: int)        // [outvk]
    | OutAudio(k: int)        // [outak]

  function LabelText(l: Label): string {
    match l
    case InputVideo(i) => "[" + IntToString(i) + ":v:0]"
    case InputAudio(i) => "[" + IntToString(i) + ":a:0]"
    case Trimmed(i) => "[v" + IntToString(i) + "]"
    case OutVideo(k) => "[outv" + IntToString(k) + "]"
    case OutAudio(k) => "[outa" + IntToString(k) + "]"
  }

  function LabelsText(ls: seq<Label>): string {
    if |ls| == 0 then "" else LabelText(ls[0]) + LabelsText(ls[1..])
  }

  /** In `[` + x + q, the second character is x's first and the fourth from
      last is q's second. */
  lemma InputShape(x: string, q: string)
    requires |x| > 0 && |q| == 5
    ensures var t := "[" + x + q; |t| >= 4 && t[1] == x[0] && t[|t| - 4] == q[1]
  {
    var t := "[" + x + q;
    assert t[|t| - 4] == t[1 + |x| + 1];
  }

  /** The discriminating characters of a label's text: the second character
      tells input labels (a digit or `-`), trimmed labels (`v`) and output
      labels (`o`) apart; the fifth tells the two outputs apart and the
      fourth from last the two inputs. */
  lemma LabelShape(l: Label)
    ensures var t := LabelText(l);
      && |t| >= 4
      && (t[1] == 'v' <==> l.Trimmed?)
      && (t[1] == 'o' <==> l.OutVideo? || l.OutAudio?)
      && (l.OutVideo? || l.OutAudio? ==> |t| > 4 && (t[4] == 'v' <==> l.OutVideo?))
      && (l.InputVideo? || l.InputAudio? ==> (t[|t| - 4] == 'v' <==> l.InputVideo?))
  {
    match l
    case InputVideo(i) =>
      InputShape(IntToString(i), ":v:0]");
    case InputAudio(i) =>
      InputShape(IntToString(i), ":a:0]");
    case Trimmed(i) => Framed("[v", IntToString(i), "]");
    case OutVideo(k) => Framed("[outv", IntToString(k), "]");
    case OutAudio(k) => Framed("[outa", IntToString(k), "]");
  }

  /** The number a label carries. */
  function LabelNumber(l: Label): int {
    match l
    case InputVideo(i) => i
    case InputAudio(i) => i
    case Trimmed(i) => i
    case OutVideo(k) => k
    case OutAudio(k) => k
  }

  /** The fixed text before and after a label's number. */
  function LabelPrefix(l: Label): string {
    match l
    case InputVideo(_) => "["
    case InputAudio(_) => "["
    case Trimmed(_) => "[v"
    case OutVideo(_) => "[outv"
    case OutAudio(_) => "[outa"
  }

  function LabelSuffix(l: Label): string {
    match l
    case InputVideo(_) => ":v:0]"
    case InputAudio(_) => ":a:0]"
    case Trimmed(_) => "]"
    case OutVideo(_) => "]"
    case OutAudio(_) => "]"
  }

  /** Different streams have different labels: the label text determines
      the stream. */
  lemma LabelTextInjective(a: Label, b: Label)
    requires LabelText(a) == LabelText(b)
    ensures a == b
  {
    LabelShape(a);
    LabelShape(b);
    var t := LabelText(a);
    var p, q := LabelPrefix(a), LabelSuffix(a);
    assert LabelPrefix(b) == p && LabelSuffix(b) == q;
    Framed(p, IntToString(LabelNumber(a)), q);
    Framed(p, IntToString(LabelNumber(b)), q);
    IntToStringInjective(LabelNumber(a), LabelNumber(b));
  }

  /** The trim filter of input `i`: `[i:v:0]trim=0,setpts=PTS-STARTPTS[vi]`. */
  function TrimFilter(i: int): string {
    LabelText(InputVideo(i)) + "trim=0,setpts=PTS-STARTPTS" + LabelText(Trimmed(i))
  }

  /** The text the first loop appends for input `i`: its trim filter and `;`. */
  function TrimSegment(i: int): string {
    TrimFilter(i) + ";"
  }

  /** The options of the `i`-th transition: the transition and duration
      verbatim and the offset `i * 5`, whatever the duration. */
  function XfadeOptions(i: int, transition: string, duration: int): string {
    "xfade=transition=" + transition + ":duration=" + IntToString(duration) + ":offset=" + IntToString(i * 5)
  }

  /** The `i`-th transition,
      `[vi][i:a:0][v{i+1}][{i+1}:a:0]xfade=transition=T:duration=D:offset={i*5}[outv{i+1}][outa{i+1}]`. */
  function XfadeFilter(i: int, transition: string, duration: int): string {
    (LabelText(Trimmed(i)) + LabelText(InputAudio(i)) + LabelText(Trimmed(i + 1)) + LabelText(InputAudio(i + 1)))
      + XfadeOptions(i, transition, duration)
      + (LabelText(OutVideo(i + 1)) + LabelText(OutAudio(i + 1)))
  }

  function TrimInputs(i: int): seq<Label> { [InputVideo(i)] }
  function TrimOutputs(i: int): seq<Label> { [Trimmed(i)] }

  /** The `i`-th transition reads the trimmed video and the audio of inputs
      `i` and `i + 1`. */
  function XfadeInputs(i: int): seq<Label> {
    [Trimmed(i), InputAudio(i), Trimmed(i + 1), InputAudio(i + 1)]
  }

  function XfadeOutputs(i: int): seq<Label> { [OutVideo(i + 1), OutAudio(i + 1)] }

  /** The trim filter reads input `i`'s video and names it `[vi]`. */
  lemma TrimFilterStreams(i: int)
    ensures TrimFilter(i) == LabelsText(TrimInputs(i)) + "trim=0,setpts=PTS-STARTPTS" + LabelsText(TrimOutputs(i))
  {
    assert TrimInputs(i)[1..] == [] && TrimOutputs(i)[1..] == [];
  }

  lemma {:induction false} LabelsTextAppend(a: seq<Label>, b: seq<Label>)
    ensures LabelsText(a + b) == LabelsText(a) + LabelsText(b)
  {
    if |a| == 0 {
      assert a + b == b;
    } else {
      assert (a + b)[1..] == a[1..] + b;
      LabelsTextAppend(a[1..], b);
    }
  }

  lemma LabelsTextOfTwo(a: Label, b: Label)
    ensures LabelsText([a, b]) == LabelText(a) + LabelText(b)
  {
    assert [a][1..] == [] && [b][1..] == [];
    LabelsTextAppend([a], [b]);
    assert [a] + [b] == [a, b];
  }

  lemma LabelsTextOfFour(a: Label, b: Label, c: Label, d: Label)
    ensures LabelsText([a, b, c, d]) == LabelText(a) + LabelText(b) + LabelText(c) + LabelText(d)
  {
    LabelsTextOfTwo(a, b);
    LabelsTextOfTwo(c, d);
    LabelsTextAppend([a, b], [c, d]);
    assert [a, b] + [c, d] == [a, b, c, d];
  }

  /** The transition text is its input labels, its options and its output labels. */
  lemma XfadeFilterStreams(i: int, transition: string, duration: int)
    ensures XfadeFilter(i, transition, duration)
         == LabelsText(XfadeInputs(i)) + XfadeOptions(i, transition, duration) + LabelsText(XfadeOutputs(i))
  {
    LabelsTextOfFour(Trimmed(i), InputAudio(i), Trimmed(i + 1), InputAudio(i + 1));
    LabelsTextOfTwo(OutVideo(i + 1), OutAudio(i + 1));
  }

  function TrimFilters(n: nat): (r: seq<string>)
    ensures |r| == n
  {
    seq(n, i requires 0 <= i < n => TrimFilter(i))
  }

  /** Number of transitions: one per consecutive pair of inputs. */
  function Pairs(n: nat): nat {
    if n > 0 then n - 1 else 0
  }

  /** The first `count` transitions. */
  function Transitions(count: nat, transition: string, duration: int): (r: seq<string>)
    ensures |r| == count
    ensures forall k :: 0 <= k < count ==> r[k] == XfadeFilter(k, transition, duration)
  {
    if count == 0 then [] else Transitions(count - 1, transition, duration) + [XfadeFilter(count - 1, transition, duration)]
  }

  function XfadeFilters(n: nat, transition: string, duration: int): (r: seq<string>)
    ensures |r| == Pairs(n)
  {
    Transitions(Pairs(n), transition, duration)
  }

  /** The `-filter_complex` argument for `n` inputs: the trim segments of
      inputs 0 to n-1, then the transitions joined by `;`. */
  function FilterComplex(n: nat, transition: string, duration: int): string {
    Concat(Terminate(TrimFilters(n), ";")) + Join(";", XfadeFilters(n, transition, duration))
  }

  /** `-map [outv{n-1}] -map [outa{n-1}]`. */
  function FinalMap(n: nat): string {
    "-map " + LabelText(OutVideo(n - 1)) + " -map " + LabelText(OutAudio(n - 1))
  }

  /** `-i <file>` for each input, in order. */
  function InputArgs(files: seq<string>): (r: seq<string>)
    ensures |r| == |files|
    ensures forall i :: 0 <= i < |files| ==> r[i] == "-i " + files[i]
  {
    seq(|files|, i requires 0 <= i < |files| => "-i " + files[i])
  }

  /** The whole command line. */
  function FfmpegCommand(files: seq<string>, outputFile: string, transition: string, duration: int): (r: string)
    ensures |r| >= 7 + |outputFile| && r[..7] == "ffmpeg "
    ensures r[|r| - |outputFile|..] == outputFile
  {
    var middle := Join(" ", InputArgs(files)) + " -filter_complex \"" + FilterComplex(|files|, transition, duration)
      + "\" " + FinalMap(|files|) + " ";
    Framed("ffmpeg ", middle, outputFile);
    "ffmpeg " + middle + outputFile
  }

  /** One more pass of the first loop appends the next trim segment. */
  lemma TrimSegmentsGrow(i: nat)
    ensures Concat(Terminate(TrimFilters(i + 1), ";")) == Concat(Terminate(TrimFilters(i), ";")) + TrimSegment(i)
  {
    var before, after := Terminate(TrimFilters(i), ";"), Terminate(TrimFilters(i + 1), ";");
    assert after == before + [TrimSegment(i)];
    ConcatAppend(before, [TrimSegment(i)]);
    assert Concat([TrimSegment(i)]) == TrimSegment(i);
  }

  /** `generate_ffmpeg_command(input_files, output_file, transition, duration)`. */
  method GenerateFfmpegCommand(inputFiles: seq<string>, outputFile: string,
                               transition: string := "slideleft", duration: int := 1)
    returns (command: string)
    ensures command == FfmpegCommand(inputFiles, outputFile, transition, duration)
  {
    var n := |inputFiles|;
    var filterComplex := "";
    var inputs := InputArgs(inputFiles);
    var xfadeFilters: seq<string> := [];
    for i := 0 to n
      invariant filterComplex == Concat(Terminate(TrimFilters(i), ";"))
    {
      TrimSegmentsGrow(i);
      filterComplex := filterComplex + TrimSegment(i);
    }
    for i := 0 to Pairs(n)
      invariant xfadeFilters == Transitions(i, transition, duration)
    {
      xfadeFilters := xfadeFilters + [XfadeFilter(i, transition, duration)];
    }
    filterComplex := filterComplex + Join(";", xfadeFilters);
    assert filterComplex == FilterComplex(n, transition, duration);
    var finalMap := FinalMap(n);
    command := "ffmpeg " + (Join(" ", inputs) + " -filter_complex \"" + filterComplex + "\" "
      + finalMap + " ") + outputFile;
  }

  /** The filter graph is the n trim filters followed by the n-1
      transitions, all separated by single `;`; only for a single input is
      there a trailing `;` (the last trim segment's, with no transition
      after it). */
  lemma FilterComplexLayout(n: nat, transition: string, duration: int)
    ensures FilterComplex(n, transition, duration)
         == Join(";", TrimFilters(n) + XfadeFilters(n, transition, duration)) + (if n == 1 then ";" else "")
  {
    var trims, xfades := TrimFilters(n), XfadeFilters(n, transition, duration);
    if n == 0 {
      assert trims + xfades == [];
    } else {
      ConcatTerminated(trims, ";");
      if n == 1 {
        assert trims + xfades == trims;
      } else {
        JoinAppend(";", trims, xfades);
      }
    }
  }

  /** Filter `k` of the graph sits between the filters before it and the
      filters after it, in index order. */
  lemma FilterAt(n: nat, transition: string, duration: int, k: nat)
    requires k < n + Pairs(n)
    ensures var all := TrimFilters(n) + XfadeFilters(n, transition, duration);
      FilterComplex(n, transition, duration)
        == (if k == 0 then "" else Join(";", all[..k]) + ";") + all[k]
           + (if k == |all| - 1 then "" else ";" + Join(";", all[k + 1..]))
           + (if n == 1 then ";" else "")
  {
    FilterComplexLayout(n, transition, duration);
    JoinSplitAt(";", TrimFilters(n) + XfadeFilters(n, transition, duration), k);
  }

  /** The first `n` filters are the trim filters of the inputs in order,
      the rest the transitions in order. */
  lemma FilterKind(n: nat, transition: string, duration: int, k: nat)
    requires k < n + Pairs(n)
    ensures k < n ==> (TrimFilters(n) + XfadeFilters(n, transition, duration))[k] == TrimFilter(k)
    ensures n <= k ==> (TrimFilters(n) + XfadeFilters(n, transition, duration))[k]
                       == XfadeFilter(k - n, transition, duration)
  {
    var trims, xfades := TrimFilters(n), XfadeFilters(n, transition, duration);
    if k < n {
      assert (trims + xfades)[k] == trims[k];
    } else {
      assert (trims + xfades)[k] == xfades[k - n];
    }
  }

  /** Some filter of the graph for `n` inputs writes stream `l`. */
  ghost predicate Produced(n: nat, l: Label) {
    (exists i :: 0 <= i < n && l in TrimOutputs(i))
    || (exists i :: 0 <= i < Pairs(n) && l in XfadeOutputs(i))
  }

  /** The final map names the video and audio streams of the last transition:
      they exist exactly when there are at least two inputs. With one input
      the command maps `[outv0]` and `[outa0]`, which no filter writes. */
  lemma FinalMapResolved(n: nat)
    ensures Produced(n, OutVideo(n - 1)) <==> n >= 2
    ensures Produced(n, OutAudio(n - 1)) <==> n >= 2
  {
    if n >= 2 {
      assert OutVideo(n - 1) in XfadeOutputs(n - 2) && OutAudio(n - 1) in XfadeOutputs(n - 2);
    }
  }

  /** The same at the level of text: a filter writes a stream labelled with
      the text the final map names exactly when there are at least two
      inputs. */
  lemma FinalMapTextResolved(n: nat)
    ensures (exists l :: Produced(n, l) && LabelText(l) == LabelText(OutVideo(n - 1))) <==> n >= 2
    ensures (exists l :: Produced(n, l) && LabelText(l) == LabelText(OutAudio(n - 1))) <==> n >= 2
  {
    FinalMapResolved(n);
    forall l | Produced(n, l) && LabelText(l) == LabelText(OutVideo(n - 1)) ensures n >= 2 {
      LabelTextInjective(l, OutVideo(n - 1));
    }
    forall l | Produced(n, l) && LabelText(l) == LabelText(OutAudio(n - 1)) ensures n >= 2 {
      LabelTextInjective(l, OutAudio(n - 1));
    }
    if n >= 2 {
      assert Produced(n, OutVideo(n - 1)) && Produced(n, OutAudio(n - 1));
    }
  }

  /** The command reads `ffmpeg`, then `-i <file>` for each input in the
      given order, separated by single spaces, then the quoted filter graph,
      the final map and the output file. */
  lemma InputAt(files: seq<string>, k: nat)
    requires k < |files|
    ensures var args := InputArgs(files);
      Join(" ", args)
        == (if k == 0 then "" else Join(" ", args[..k]) + " ") + "-i " + files[k]
           + (if k == |files| - 1 then "" else " " + Join(" ", args[k + 1..]))
  {
    JoinSplitAt(" ", InputArgs(files), k);
  }
}
