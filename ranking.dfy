/**
 * Scoring and ranking the hypotheses of a beam search: each becomes its
 * caption with its score divided by its number of ids, and the list is
 * stably sorted by that score, highest first.
 */
module Ranking {
  import opened Results
  import opened Text
  import opened Detokenise

  /** One `(ids, score)` pair as the beam decoder returns it. */
  datatype Hypothesis = Hypothesis(wordIds: seq<int>, score: real)

  /** One `(' '.join(words), normalised score)` entry of `sents`. */
  datatype Sentence = Sentence(caption: string, score: real)

  /**
   * The entry for one hypothesis. The divisor is the number of ids, start and
   * end ids included, not the number of words kept.
   */
  function Score(idx2word: Vocabulary, h: Hypothesis): (r: Result<Sentence>)
    ensures CaptionWords(idx2word, h.wordIds).Err? ==> r == Err(CaptionWords(idx2word, h.wordIds).error)
    ensures CaptionWords(idx2word, h.wordIds).Ok? && h.wordIds == [] ==> r == Err(EmptyHypothesis)
    ensures r.Ok? <==> CaptionWords(idx2word, h.wordIds).Ok? && h.wordIds != []
    ensures r.Ok? ==> r.value.caption == Join(CaptionWords(idx2word, h.wordIds).value)
  {
    match CaptionWords(idx2word, h.wordIds)
    case Err(e) => Err(e)
    case Ok(words) =>
      if |h.wordIds| == 0 then Err(EmptyHypothesis)
      else Ok(Sentence(Join(words), h.score / (|h.wordIds| as real)))
  }

  /**
   * The normalised score times the number of ids gives back the raw score:
   * every id counts, start and end ids included, however many words are kept.
   */
  lemma NormalisedByIdCount(idx2word: Vocabulary, h: Hypothesis)
    requires Score(idx2word, h).Ok?
    ensures Score(idx2word, h).value.score * (|h.wordIds| as real) == h.score
  {
  }

  /** The unsorted `sents` list, or the failure of the first hypothesis that fails. */
  function ScoreAll(idx2word: Vocabulary, hyps: seq<Hypothesis>): (r: Result<seq<Sentence>>)
    ensures r.Ok? ==> |r.value| == |hyps|
    ensures r.Ok? ==> forall i :: 0 <= i < |hyps| ==> Score(idx2word, hyps[i]) == Ok(r.value[i])
    decreases |hyps|
  {
    if hyps == [] then Ok([])
    else
      match Score(idx2word, hyps[0])
      case Err(e) => Err(e)
      case Ok(s) =>
        match ScoreAll(idx2word, hyps[1..])
        case Err(e) => Err(e)
        case Ok(rest) => Ok([s] + rest)
  }

  /** When every hypothesis scores, `sents` holds their entries in the decoder's order. */
  lemma {:induction false} ScoreAllSucceeds(idx2word: Vocabulary, hyps: seq<Hypothesis>, sents: seq<Sentence>)
    requires |sents| == |hyps|
    requires forall i :: 0 <= i < |hyps| ==> Score(idx2word, hyps[i]) == Ok(sents[i])
    ensures ScoreAll(idx2word, hyps) == Ok(sents)
    decreases |hyps|
  {
    if hyps != [] {
      ScoreAllSucceeds(idx2word, hyps[1..], sents[1..]);
      assert sents == [sents[0]] + sents[1..];
    }
  }

  /** Otherwise the loop fails with the failure of the first hypothesis that fails. */
  lemma {:induction false} ScoreAllFails(idx2word: Vocabulary, hyps: seq<Hypothesis>, i: nat)
    requires i < |hyps|
    requires forall j :: 0 <= j < i ==> Score(idx2word, hyps[j]).Ok?
    requires Score(idx2word, hyps[i]).Err?
    ensures ScoreAll(idx2word, hyps) == Err(Score(idx2word, hyps[i]).error)
    decreases i
  {
    if i > 0 {
      ScoreAllFails(idx2word, hyps[1..], i - 1);
    }
  }

  /** Highest score first. */
  ghost predicate NonIncreasing(s: seq<Sentence>)
  {
    forall i, j :: 0 <= i < j < |s| ==> s[i].score >= s[j].score
  }

  /** Places `x` before the first entry whose score is not above its own. */
  function Insert(x: Sentence, s: seq<Sentence>): seq<Sentence>
  {
    if s == [] || s[0].score <= x.score then [x] + s
    else [s[0]] + Insert(x, s[1..])
  }

  /** Inserting into a ranked list keeps it ranked and adds exactly `x`. */
  lemma {:induction false} InsertSorted(x: Sentence, s: seq<Sentence>)
    requires NonIncreasing(s)
    ensures |Insert(x, s)| == |s| + 1
    ensures Insert(x, s)[0] == x || (s != [] && Insert(x, s)[0] == s[0])
    ensures NonIncreasing(Insert(x, s))
    ensures multiset(Insert(x, s)) == multiset(s) + multiset{x}
  {
    if s != [] && s[0].score > x.score {
      var rest := Insert(x, s[1..]);
      InsertSorted(x, s[1..]);
      assert multiset(s) == multiset{s[0]} + multiset(s[1..]) by {
        assert s == [s[0]] + s[1..];
      }
      assert rest[0].score <= s[0].score;
    }
  }

  /** `sorted(sents, key=lambda x: x[1], reverse=True)`. */
  function Rank(s: seq<Sentence>): (r: seq<Sentence>)
    ensures NonIncreasing(r)
    ensures multiset(r) == multiset(s)
    ensures |r| == |s|
  {
    if s == [] then []
    else
      assert s == [s[0]] + s[1..];
      InsertSorted(s[0], Rank(s[1..]));
      Insert(s[0], Rank(s[1..]))
  }

  /** The entries whose score is `v`, in order. */
  function WithScore(s: seq<Sentence>, v: real): seq<Sentence>
  {
    if s == [] then []
    else (if s[0].score == v then [s[0]] else []) + WithScore(s[1..], v)
  }

  lemma WithScoreCons(x: Sentence, s: seq<Sentence>, v: real)
    ensures WithScore([x] + s, v) == (if x.score == v then [x] else []) + WithScore(s, v)
  {
    assert ([x] + s)[1..] == s;
  }

  lemma {:induction false} InsertStable(x: Sentence, s: seq<Sentence>, v: real)
    ensures WithScore(Insert(x, s), v) == WithScore([x] + s, v)
  {
    if s != [] && s[0].score > x.score {
      var t := s[1..];
      var rest := Insert(x, t);
      var hx: seq<Sentence> := if x.score == v then [x] else [];
      var hs: seq<Sentence> := if s[0].score == v then [s[0]] else [];
      InsertStable(x, t, v);
      WithScoreCons(s[0], rest, v);
      WithScoreCons(x, t, v);
      WithScoreCons(x, s, v);
      assert WithScore(Insert(x, s), v) == hs + (hx + WithScore(t, v));
      assert WithScore([x] + s, v) == hx + (hs + WithScore(t, v));
      if x.score == v {
        assert hs == [];
      } else {
        assert hx == [];
      }
    }
  }

  /** The sort is stable: entries with equal scores keep their original order. */
  lemma {:induction false} RankStable(s: seq<Sentence>, v: real)
    ensures WithScore(Rank(s), v) == WithScore(s, v)
  {
    if s != [] {
      RankStable(s[1..], v);
      InsertStable(s[0], Rank(s[1..]), v);
      assert ([s[0]] + Rank(s[1..]))[1..] == Rank(s[1..]);
    }
  }

  /** The first ranked entry has the highest score of all the entries. */
  lemma RankTop(s: seq<Sentence>)
    requires s != []
    ensures Rank(s) != []
    ensures forall i :: 0 <= i < |s| ==> s[i].score <= Rank(s)[0].score
  {
    var r := Rank(s);
    assert |r| == |multiset(r)| == |multiset(s)| == |s|;
    forall i | 0 <= i < |s|
      ensures s[i].score <= r[0].score
    {
      assert s[i] in multiset(s);
      assert s[i] in r;
      var j :| 0 <= j < |r| && r[j] == s[i];
    }
  }

  /**
   * The caption ranked first for an image is that of a hypothesis with the
   * highest normalised score among all of the image's hypotheses.
   */
  lemma RankedFirstIsBest(idx2word: Vocabulary, hyps: seq<Hypothesis>)
    requires hyps != []
    requires RankedSentences(idx2word, hyps).Ok?
    ensures var ranked := RankedSentences(idx2word, hyps).value;
      && ranked != []
      && (exists i :: 0 <= i < |hyps| && Score(idx2word, hyps[i]) == Ok(ranked[0]))
      && forall i :: 0 <= i < |hyps| ==> Score(idx2word, hyps[i]).value.score <= ranked[0].score
  {
    var s := ScoreAll(idx2word, hyps).value;
    RankTop(s);
    var ranked := Rank(s);
    assert ranked[0] in multiset(s) by {
      assert ranked[0] in multiset(ranked);
    }
    var k :| 0 <= k < |s| && s[k] == ranked[0];
    assert Score(idx2word, hyps[k]) == Ok(ranked[0]);
  }

  /** The ranked list for one image, or the failure of the first hypothesis that fails. */
  function RankedSentences(idx2word: Vocabulary, hyps: seq<Hypothesis>): (r: Result<seq<Sentence>>)
    ensures r.Ok? ==> |r.value| == |hyps|
  {
    match ScoreAll(idx2word, hyps)
    case Ok(s) => Ok(Rank(s))
    case Err(e) => Err(e)
  }

  /** The loop of `evaluate_with_beam_search` over one image's hypotheses, then the sort. */
  method RankHypotheses(idx2word: Vocabulary, generatedSents: seq<Hypothesis>) returns (r: Result<seq<Sentence>>)
    ensures r == RankedSentences(idx2word, generatedSents)
  {
    var sents: seq<Sentence> := [];
    var i := 0;
    while i < |generatedSents|
      invariant 0 <= i <= |generatedSents|
      invariant |sents| == i
      invariant forall j :: 0 <= j < i ==> Score(idx2word, generatedSents[j]) == Ok(sents[j])
    {
      var sentId := generatedSents[i];
      var words := BeamWords(idx2word, sentId.wordIds);
      if words.Err? {
        ScoreAllFails(idx2word, generatedSents, i);
        return Err(words.error);
      }
      if |sentId.wordIds| == 0 {
        ScoreAllFails(idx2word, generatedSents, i);
        return Err(EmptyHypothesis);
      }
      sents := sents + [Sentence(Join(words.value), sentId.score / (|sentId.wordIds| as real))];
      i := i + 1;
    }
    ScoreAllSucceeds(idx2word, generatedSents, sents);
    sents := Rank(sents);
    return Ok(sents);
  }
}
