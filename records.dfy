/** The `{image_id, caption}` records that both evaluations dump as JSON. */
module Records {
  import opened Results
  import opened Text
  import opened Ranking

  datatype Record = Record(imageId: int, caption: string)

  /** The comprehension of `evaluate`: one record per image id, its words joined by spaces. */
  function GreedyRecords(imageIds: seq<int>, generatedCaptions: seq<seq<string>>): (r: seq<Record>)
    requires |imageIds| <= |generatedCaptions|
    ensures |r| == |imageIds|
    ensures forall i :: 0 <= i < |r| ==> r[i].imageId == imageIds[i] && r[i].caption == Join(generatedCaptions[i])
  {
    seq(|imageIds|, i requires 0 <= i < |imageIds| => Record(imageIds[i], Join(generatedCaptions[i])))
  }

  /** The first of the first `n` ranked lists that is empty, or `n`. */
  function FirstEmpty(generatedCaptions: seq<seq<Sentence>>, n: nat): (k: nat)
    requires n <= |generatedCaptions|
    ensures k <= n
    ensures forall j :: 0 <= j < k ==> generatedCaptions[j] != []
    ensures k < n ==> generatedCaptions[k] == []
  {
    if n == 0 then 0
    else
      var k := FirstEmpty(generatedCaptions, n - 1);
      if k < n - 1 || generatedCaptions[n - 1] == [] then k else n
  }

  /**
   * The comprehension of `evaluate_with_beam_search`: one record per image id
   * holding the caption ranked first, failing at the first image whose list is empty.
   */
  function BeamRecords(imageIds: seq<int>, generatedCaptions: seq<seq<Sentence>>): (r: Result<seq<Record>>)
    requires |imageIds| <= |generatedCaptions|
    ensures r.Ok? <==> forall i :: 0 <= i < |imageIds| ==> generatedCaptions[i] != []
    ensures r.Ok? ==> |r.value| == |imageIds|
    ensures r.Ok? ==> forall i :: 0 <= i < |imageIds| ==>
      r.value[i].imageId == imageIds[i] && r.value[i].caption == generatedCaptions[i][0].caption
    ensures r.Err? ==> exists i :: 0 <= i < |imageIds| && r.error == NoHypotheses(i) && generatedCaptions[i] == []
                                   && forall j :: 0 <= j < i ==> generatedCaptions[j] != []
  {
    var k := FirstEmpty(generatedCaptions, |imageIds|);
    if k < |imageIds| then Err(NoHypotheses(k))
    else Ok(seq(|imageIds|, i requires 0 <= i < |imageIds| => Record(imageIds[i], generatedCaptions[i][0].caption)))
  }
}
