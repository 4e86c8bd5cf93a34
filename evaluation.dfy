/**
 * The two evaluation drivers, `evaluate` and `evaluate_with_beam_search`,
 * with the decoder's output for every image given as input and the files
 * they write given as values: the JSON records and the caption report text.
 */
module Evaluation {
  import opened Results
  import opened Text
  import opened Detokenise
  import opened Ranking
  import opened Records
  import opened Report

  /** One test image as the dataset yields it (its id and target captions), with the decoder's output for it. */
  datatype Sample<D> = Sample(imageId: int, decoded: D, targets: seq<seq<string>>)

  /** What an evaluation writes: the records of the JSON file and the text of the caption file. */
  datatype Outputs = Outputs(records: seq<Record>, captionReport: string)

  function TargetCaptions<D>(samples: seq<Sample<D>>): seq<seq<seq<string>>>
  {
    seq(|samples|, i requires 0 <= i < |samples| => samples[i].targets)
  }

  /** The first image whose ids fail to detokenise, or `|samples|`. */
  function FirstUndecoded(idx2word: Vocabulary, samples: seq<Sample<seq<int>>>): (k: nat)
    ensures k <= |samples|
    ensures forall j :: 0 <= j < k ==> CaptionWords(idx2word, samples[j].decoded).Ok?
    ensures k < |samples| ==> CaptionWords(idx2word, samples[k].decoded).Err?
    decreases |samples|
  {
    if samples == [] || CaptionWords(idx2word, samples[0].decoded).Err? then 0
    else 1 + FirstUndecoded(idx2word, samples[1..])
  }

  function GeneratedCaptions(idx2word: Vocabulary, samples: seq<Sample<seq<int>>>): seq<seq<string>>
    requires FirstUndecoded(idx2word, samples) == |samples|
  {
    seq(|samples|, i requires 0 <= i < |samples| => CaptionWords(idx2word, samples[i].decoded).value)
  }

  function ImageIds<D>(samples: seq<Sample<D>>): seq<int>
  {
    seq(|samples|, i requires 0 <= i < |samples| => samples[i].imageId)
  }

  /** The three lists the per-image loop grows side by side. */
  datatype Collected<C> = Collected(imageIds: seq<int>, generatedCaptions: seq<C>, targetCaptions: seq<seq<seq<string>>>)

  /**
   * The per-image loop of `evaluate`: it appends each image's id, greedy
   * caption and target captions in dataset order, and the first image whose
   * ids fail aborts it with that failure.
   */
  method DecodeImages(idx2word: Vocabulary, samples: seq<Sample<seq<int>>>) returns (r: Result<Collected<seq<string>>>)
    ensures var k := FirstUndecoded(idx2word, samples);
      k < |samples| ==> r == Err(CaptionWords(idx2word, samples[k].decoded).error)
    ensures r.Ok? <==> FirstUndecoded(idx2word, samples) == |samples|
    ensures r.Ok? ==>
      r.value == Collected(ImageIds(samples), GeneratedCaptions(idx2word, samples), TargetCaptions(samples))
  {
    var generatedCaptions: seq<seq<string>> := [];
    var imageIds: seq<int> := [];
    var targetCaptions: seq<seq<seq<string>>> := [];
    for idx := 0 to |samples|
      invariant |generatedCaptions| == |imageIds| == |targetCaptions| == idx
      invariant forall i :: 0 <= i < idx ==> CaptionWords(idx2word, samples[i].decoded) == Ok(generatedCaptions[i])
      invariant forall i :: 0 <= i < idx ==> imageIds[i] == samples[i].imageId && targetCaptions[i] == samples[i].targets
    {
      var sample := samples[idx];
      var words := GreedyWords(idx2word, sample.decoded);
      if words.Err? {
        assert FirstUndecoded(idx2word, samples) == idx;
        return Err(words.error);
      }
      imageIds := imageIds + [sample.imageId];
      generatedCaptions := generatedCaptions + [words.value];
      targetCaptions := targetCaptions + [sample.targets];
    }
    assert generatedCaptions == GeneratedCaptions(idx2word, samples);
    assert imageIds == ImageIds(samples);
    assert targetCaptions == TargetCaptions(samples);
    return Ok(Collected(imageIds, generatedCaptions, targetCaptions));
  }

  /**
   * `evaluate`: one greedy caption per image, then one record per image in
   * dataset order and the caption report; the first image whose ids fail
   * aborts the whole run with that failure.
   */
  method Evaluate(idx2word: Vocabulary, samples: seq<Sample<seq<int>>>) returns (r: Result<Outputs>)
    ensures var k := FirstUndecoded(idx2word, samples);
      k < |samples| ==> r == Err(CaptionWords(idx2word, samples[k].decoded).error)
    ensures r.Ok? <==> FirstUndecoded(idx2word, samples) == |samples|
    ensures r.Ok? ==> |r.value.records| == |samples|
    ensures r.Ok? ==> forall i :: 0 <= i < |samples| ==>
      r.value.records[i] == Record(samples[i].imageId, Join(CaptionWords(idx2word, samples[i].decoded).value))
    ensures r.Ok? ==>
      r.value.captionReport == Lines(ReportLines(GreedyLines(GeneratedCaptions(idx2word, samples)), TargetCaptions(samples)))
  {
    var collected := DecodeImages(idx2word, samples);
    if collected.Err? {
      return Err(collected.error);
    }
    var c := collected.value;
    var imageCaptions := GreedyRecords(c.imageIds, c.generatedCaptions);
    var text := WriteGreedyCaptions(c.generatedCaptions, c.targetCaptions);
    return Ok(Outputs(imageCaptions, text));
  }

  /** The first image whose hypotheses fail to score, or `|samples|`. */
  function FirstUnranked(idx2word: Vocabulary, samples: seq<Sample<seq<Hypothesis>>>): (k: nat)
    ensures k <= |samples|
    ensures forall j :: 0 <= j < k ==> RankedSentences(idx2word, samples[j].decoded).Ok?
    ensures k < |samples| ==> RankedSentences(idx2word, samples[k].decoded).Err?
    decreases |samples|
  {
    if samples == [] || RankedSentences(idx2word, samples[0].decoded).Err? then 0
    else 1 + FirstUnranked(idx2word, samples[1..])
  }

  /** The first image for which the decoder returned no hypothesis, or `|samples|`. */
  function FirstWithoutHypotheses(samples: seq<Sample<seq<Hypothesis>>>): (k: nat)
    ensures k <= |samples|
    ensures forall j :: 0 <= j < k ==> samples[j].decoded != []
    ensures k < |samples| ==> samples[k].decoded == []
    decreases |samples|
  {
    if samples == [] || samples[0].decoded == [] then 0
    else 1 + FirstWithoutHypotheses(samples[1..])
  }

  function RankedLists(idx2word: Vocabulary, samples: seq<Sample<seq<Hypothesis>>>): seq<seq<Sentence>>
    requires FirstUnranked(idx2word, samples) == |samples|
  {
    seq(|samples|, i requires 0 <= i < |samples| => RankedSentences(idx2word, samples[i].decoded).value)
  }

  /**
   * The per-image loop of `evaluate_with_beam_search`: it appends each
   * image's ranked captions, id and target captions in dataset order, and the
   * first image whose hypotheses fail aborts it with that failure.
   */
  method RankImages(idx2word: Vocabulary, samples: seq<Sample<seq<Hypothesis>>>) returns (r: Result<Collected<seq<Sentence>>>)
    ensures var k := FirstUnranked(idx2word, samples);
      k < |samples| ==> r == Err(RankedSentences(idx2word, samples[k].decoded).error)
    ensures r.Ok? <==> FirstUnranked(idx2word, samples) == |samples|
    ensures r.Ok? ==>
      r.value == Collected(ImageIds(samples), RankedLists(idx2word, samples), TargetCaptions(samples))
  {
    var generatedCaptions: seq<seq<Sentence>> := [];
    var imageIds: seq<int> := [];
    var targetCaptions: seq<seq<seq<string>>> := [];
    for idx := 0 to |samples|
      invariant |generatedCaptions| == |imageIds| == |targetCaptions| == idx
      invariant forall i :: 0 <= i < idx ==> RankedSentences(idx2word, samples[i].decoded) == Ok(generatedCaptions[i])
      invariant forall i :: 0 <= i < idx ==> imageIds[i] == samples[i].imageId && targetCaptions[i] == samples[i].targets
    {
      var sample := samples[idx];
      var sents := RankHypotheses(idx2word, sample.decoded);
      if sents.Err? {
        assert FirstUnranked(idx2word, samples) == idx;
        return Err(sents.error);
      }
      generatedCaptions := generatedCaptions + [sents.value];
      imageIds := imageIds + [sample.imageId];
      targetCaptions := targetCaptions + [sample.targets];
    }
    assert generatedCaptions == RankedLists(idx2word, samples);
    assert imageIds == ImageIds(samples);
    assert targetCaptions == TargetCaptions(samples);
    return Ok(Collected(imageIds, generatedCaptions, targetCaptions));
  }

  /**
   * `evaluate_with_beam_search`: every image's ranked captions, then one
   * record per image in dataset order holding the caption ranked first, and
   * the caption report. The first image whose hypotheses fail aborts the run
   * during the loop; otherwise the first image without hypotheses aborts it
   * when the records are built.
   */
  method EvaluateWithBeamSearch(idx2word: Vocabulary, samples: seq<Sample<seq<Hypothesis>>>) returns (r: Result<Outputs>)
    ensures var k := FirstUnranked(idx2word, samples);
      k < |samples| ==> r == Err(RankedSentences(idx2word, samples[k].decoded).error)
    ensures var e := FirstWithoutHypotheses(samples);
      FirstUnranked(idx2word, samples) == |samples| && e < |samples| ==> r == Err(NoHypotheses(e))
    ensures r.Ok? <==> FirstUnranked(idx2word, samples) == |samples| && FirstWithoutHypotheses(samples) == |samples|
    ensures r.Ok? ==> |r.value.records| == |samples|
    ensures r.Ok? ==> forall i :: 0 <= i < |samples| ==>
      && RankedSentences(idx2word, samples[i].decoded).value != []
      && r.value.records[i] == Record(samples[i].imageId, RankedSentences(idx2word, samples[i].decoded).value[0].caption)
    ensures r.Ok? ==>
      r.value.captionReport == Lines(ReportLines(BeamLines(RankedLists(idx2word, samples)), TargetCaptions(samples)))
  {
    var collected := RankImages(idx2word, samples);
    if collected.Err? {
      return Err(collected.error);
    }
    var c := collected.value;
    assert forall i :: 0 <= i < |samples| ==> (c.generatedCaptions[i] == [] <==> samples[i].decoded == []);
    var imageCaptions := BeamRecords(c.imageIds, c.generatedCaptions);
    if imageCaptions.Err? {
      assert FirstWithoutHypotheses(samples) == imageCaptions.error.image;
      return Err(imageCaptions.error);
    }
    var text := WriteBeamCaptions(c.generatedCaptions, c.targetCaptions);
    return Ok(Outputs(imageCaptions.value, text));
  }
}
