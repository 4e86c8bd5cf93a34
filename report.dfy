/** The plain-text caption report: one block of lines per image. */
module Report {
  import opened Text
  import opened Ranking

  /** `'*' * 50`, the line that opens and closes a block. */
  const Rule: string := Repeat('*', 50)
  /** `'-' * 20 + 'generated_captions' + '-' * 20`. */
  const GeneratedHeader: string := Repeat('-', 20) + "generated_captions" + Repeat('-', 20)
  /** `'-' * 20 + 'target_captions' + '-' * 20`. */
  const TargetHeader: string := Repeat('-', 20) + "target_captions" + Repeat('-', 20)

  /** Each caption's words joined by spaces, one line per caption. */
  function JoinEach(captions: seq<seq<string>>): (r: seq<string>)
    ensures |r| == |captions|
    ensures forall i :: 0 <= i < |r| ==> r[i] == Join(captions[i])
  {
    seq(|captions|, i requires 0 <= i < |captions| => Join(captions[i]))
  }

  /**
   * `lines` followed by the lines of one block: the rule, the generated
   * header, the generated lines, the target header, the target lines, the
   * rule and a blank line.
   */
  function AppendBlock(lines: seq<string>, generatedLines: seq<string>, targets: seq<seq<string>>): (r: seq<string>)
    ensures |r| == |lines| + |generatedLines| + |targets| + 5
    ensures r[..|lines|] == lines
  {
    lines + [Rule] + [GeneratedHeader] + generatedLines + [TargetHeader] + JoinEach(targets) + [Rule] + [""]
  }

  /** The lines of one block on its own. */
  function BlockLines(generatedLines: seq<string>, targets: seq<seq<string>>): seq<string>
  {
    AppendBlock([], generatedLines, targets)
  }

  /** The lines of the blocks of the first `|generatedLines|` images, in order. */
  function ReportLines(generatedLines: seq<seq<string>>, targetCaptions: seq<seq<seq<string>>>): seq<string>
    requires |generatedLines| <= |targetCaptions|
  {
    if generatedLines == [] then []
    else
      var n := |generatedLines| - 1;
      AppendBlock(ReportLines(generatedLines[..n], targetCaptions), generatedLines[n], targetCaptions[n])
  }

  /** The generated section of a greedy block: the one caption of that image. */
  function GreedyLines(generatedCaptions: seq<seq<string>>): (r: seq<seq<string>>)
  {
    seq(|generatedCaptions|, i requires 0 <= i < |generatedCaptions| => [Join(generatedCaptions[i])])
  }

  /** The generated section of a beam block: every ranked caption, best first. */
  function Captions(sents: seq<Sentence>): seq<string>
  {
    seq(|sents|, i requires 0 <= i < |sents| => sents[i].caption)
  }

  function BeamLines(generatedCaptions: seq<seq<Sentence>>): seq<seq<string>>
  {
    seq(|generatedCaptions|, i requires 0 <= i < |generatedCaptions| => Captions(generatedCaptions[i]))
  }

  lemma ReportLinesSnoc(generatedLines: seq<seq<string>>, targetCaptions: seq<seq<seq<string>>>, idx: nat)
    requires idx < |generatedLines| <= |targetCaptions|
    ensures ReportLines(generatedLines[..idx + 1], targetCaptions)
         == AppendBlock(ReportLines(generatedLines[..idx], targetCaptions), generatedLines[idx], targetCaptions[idx])
  {
    var prefix := generatedLines[..idx + 1];
    assert prefix[..idx] == generatedLines[..idx];
    assert prefix[idx] == generatedLines[idx];
  }

  /** The inner loop writing one line per target caption. */
  method WriteTargets(text: string, ghost written: seq<string>, captions: seq<seq<string>>) returns (out: string)
    requires text == Lines(written)
    ensures out == Lines(written + JoinEach(captions))
  {
    out := text;
    assert captions[..0] == [] && written + JoinEach([]) == written;
    for j := 0 to |captions|
      invariant out == Lines(written + JoinEach(captions[..j]))
    {
      var words := captions[j];
      LinesSnoc(written + JoinEach(captions[..j]), Join(words));
      assert JoinEach(captions[..j + 1]) == JoinEach(captions[..j]) + [Join(words)];
      assert written + JoinEach(captions[..j + 1]) == written + JoinEach(captions[..j]) + [Join(words)];
      out := out + Join(words) + "\n";
    }
    assert captions[..|captions|] == captions;
  }

  /** The inner loop writing one line per ranked caption. */
  method WriteSentences(text: string, ghost written: seq<string>, sents: seq<Sentence>) returns (out: string)
    requires text == Lines(written)
    ensures out == Lines(written + Captions(sents))
  {
    out := text;
    assert sents[..0] == [] && written + Captions([]) == written;
    for k := 0 to |sents|
      invariant out == Lines(written + Captions(sents[..k]))
    {
      var sent := sents[k];
      LinesSnoc(written + Captions(sents[..k]), sent.caption);
      assert Captions(sents[..k + 1]) == Captions(sents[..k]) + [sent.caption];
      assert written + Captions(sents[..k + 1]) == written + Captions(sents[..k]) + [sent.caption];
      out := out + sent.caption + "\n";
    }
    assert sents[..|sents|] == sents;
  }

  /** One write of a line that stands alone. */
  method WriteLine(text: string, ghost written: seq<string>, line: string) returns (out: string)
    requires text == Lines(written)
    ensures out == Lines(written + [line])
  {
    LinesSnoc(written, line);
    out := text + line + "\n";
  }

  /** The writes of `evaluate` to the caption file, as one text. */
  method WriteGreedyCaptions(generatedCaptions: seq<seq<string>>, targetCaptions: seq<seq<seq<string>>>)
    returns (text: string)
    requires |generatedCaptions| <= |targetCaptions|
    ensures text == Lines(ReportLines(GreedyLines(generatedCaptions), targetCaptions))
  {
    ghost var generatedLines := GreedyLines(generatedCaptions);
    ghost var written: seq<string> := [];
    text := "";
    for idx := 0 to |generatedCaptions|
      invariant text == Lines(written)
      invariant written == ReportLines(generatedLines[..idx], targetCaptions)
    {
      ghost var before := written;
      text := WriteLine(text, written, Rule);
      written := written + [Rule];
      text := WriteLine(text, written, GeneratedHeader);
      written := written + [GeneratedHeader];
      text := WriteLine(text, written, Join(generatedCaptions[idx]));
      written := written + [Join(generatedCaptions[idx])];
      text := WriteLine(text, written, TargetHeader);
      written := written + [TargetHeader];
      text := WriteTargets(text, written, targetCaptions[idx]);
      written := written + JoinEach(targetCaptions[idx]);
      text := WriteLine(text, written, Rule);
      written := written + [Rule];
      text := WriteLine(text, written, "");
      written := written + [""];
      assert written == AppendBlock(before, generatedLines[idx], targetCaptions[idx]);
      ReportLinesSnoc(generatedLines, targetCaptions, idx);
    }
    assert generatedLines[..|generatedCaptions|] == generatedLines;
  }

  /** The writes of `evaluate_with_beam_search` to the caption file, as one text. */
  method WriteBeamCaptions(generatedCaptions: seq<seq<Sentence>>, targetCaptions: seq<seq<seq<string>>>)
    returns (text: string)
    requires |generatedCaptions| <= |targetCaptions|
    ensures text == Lines(ReportLines(BeamLines(generatedCaptions), targetCaptions))
  {
    ghost var generatedLines := BeamLines(generatedCaptions);
    ghost var written: seq<string> := [];
    text := "";
    for idx := 0 to |generatedCaptions|
      invariant text == Lines(written)
      invariant written == ReportLines(generatedLines[..idx], targetCaptions)
    {
      ghost var before := written;
      text := WriteLine(text, written, Rule);
      written := written + [Rule];
      text := WriteLine(text, written, GeneratedHeader);
      written := written + [GeneratedHeader];
      text := WriteSentences(text, written, generatedCaptions[idx]);
      written := written + Captions(generatedCaptions[idx]);
      text := WriteLine(text, written, TargetHeader);
      written := written + [TargetHeader];
      text := WriteTargets(text, written, targetCaptions[idx]);
      written := written + JoinEach(targetCaptions[idx]);
      text := WriteLine(text, written, Rule);
      written := written + [Rule];
      text := WriteLine(text, written, "");
      written := written + [""];
      assert written == AppendBlock(before, generatedLines[idx], targetCaptions[idx]);
      ReportLinesSnoc(generatedLines, targetCaptions, idx);
    }
    assert generatedLines[..|generatedCaptions|] == generatedLines;
  }

  /** No line of a block breaks, given captions without newlines. */
  predicate NoNewlines(lines: seq<string>)
  {
    forall i :: 0 <= i < |lines| ==> '\n' !in lines[i]
  }

  predicate WordsWithoutNewlines(captions: seq<seq<string>>)
  {
    forall i, j :: 0 <= i < |captions| && 0 <= j < |captions[i]| ==> '\n' !in captions[i][j]
  }

  lemma NoNewlinesAppend(a: seq<string>, b: seq<string>)
    requires NoNewlines(a) && NoNewlines(b)
    ensures NoNewlines(a + b)
  {
    assert forall i :: |a| <= i < |a + b| ==> (a + b)[i] == b[i - |a|];
  }

  lemma TargetLinesNoNewlines(targets: seq<seq<string>>)
    requires WordsWithoutNewlines(targets)
    ensures NoNewlines(JoinEach(targets))
  {
  }

  lemma FixedLinesNoNewlines()
    ensures NoNewlines([Rule]) && NoNewlines([GeneratedHeader]) && NoNewlines([TargetHeader]) && NoNewlines([""])
  {
    assert NoNewlines([GeneratedHeader]) by {
      assert GeneratedHeader == Repeat('-', 20) + "generated_captions" + Repeat('-', 20);
    }
    assert NoNewlines([TargetHeader]) by {
      assert TargetHeader == Repeat('-', 20) + "target_captions" + Repeat('-', 20);
    }
  }

  /** A block adds no line break of its own beyond the one ending each line. */
  lemma BlockNoNewlines(lines: seq<string>, generatedLines: seq<string>, targets: seq<seq<string>>)
    requires NoNewlines(lines)
    requires NoNewlines(generatedLines)
    requires WordsWithoutNewlines(targets)
    ensures NoNewlines(AppendBlock(lines, generatedLines, targets))
  {
    FixedLinesNoNewlines();
    TargetLinesNoNewlines(targets);
    var a := lines + [Rule];
    NoNewlinesAppend(lines, [Rule]);
    var b := a + [GeneratedHeader];
    NoNewlinesAppend(a, [GeneratedHeader]);
    var c := b + generatedLines;
    NoNewlinesAppend(b, generatedLines);
    var d := c + [TargetHeader];
    NoNewlinesAppend(c, [TargetHeader]);
    var e := d + JoinEach(targets);
    NoNewlinesAppend(d, JoinEach(targets));
    var f := e + [Rule];
    NoNewlinesAppend(e, [Rule]);
    NoNewlinesAppend(f, [""]);
  }

  /**
   * The exact layout of one block: read back line by line, its text gives
   * the lines of the block again, in order, one write each.
   */
  lemma BlockLayout(generatedLines: seq<string>, targets: seq<seq<string>>)
    requires NoNewlines(generatedLines)
    requires WordsWithoutNewlines(targets)
    ensures SplitLines(Lines(BlockLines(generatedLines, targets))) == BlockLines(generatedLines, targets)
  {
    BlockNoNewlines([], generatedLines, targets);
    SplitLinesOfLines(BlockLines(generatedLines, targets));
  }

  /** Read back line by line, the whole report gives the lines of its blocks, image by image. */
  lemma {:induction false} ReportLayout(generatedLines: seq<seq<string>>, targetCaptions: seq<seq<seq<string>>>)
    requires |generatedLines| <= |targetCaptions|
    requires forall i :: 0 <= i < |generatedLines| ==> NoNewlines(generatedLines[i])
    requires forall i :: 0 <= i < |targetCaptions| ==> WordsWithoutNewlines(targetCaptions[i])
    ensures NoNewlines(ReportLines(generatedLines, targetCaptions))
    ensures SplitLines(Lines(ReportLines(generatedLines, targetCaptions))) == ReportLines(generatedLines, targetCaptions)
  {
    if generatedLines != [] {
      var n := |generatedLines| - 1;
      ReportLayout(generatedLines[..n], targetCaptions);
      BlockNoNewlines(ReportLines(generatedLines[..n], targetCaptions), generatedLines[n], targetCaptions[n]);
    }
    SplitLinesOfLines(ReportLines(generatedLines, targetCaptions));
  }
}
