/**
 * Turning a decoded sequence of word ids into the words of a caption, as the
 * greedy evaluation (`evaluate`) and the beam evaluation
 * (`evaluate_with_beam_search`) each do with a loop of their own.
 */
module Detokenise {
  import opened Results

  /** The vocabulary's reserved start and end words. */
  const Start: string := "<start>"
  const End: string := "<end>"

  /** The vocabulary's `idx2word` table. */
  type Vocabulary = map<int, string>

  /** `Ok(words + v)` when `r` is `Ok(v)`; an error stays as it is. */
  function PrependAll(words: seq<string>, r: Result<seq<string>>): Result<seq<string>>
  {
    match r
    case Ok(v) => Ok(words + v)
    case Err(e) => Err(e)
  }

  /**
   * The caption the loops compute, read one id at a time from the front:
   * a start word is skipped, an end word stops the scan, an unknown id fails
   * the lookup, every other word is kept.
   */
  function CaptionWords(idx2word: Vocabulary, ids: seq<int>): (r: Result<seq<string>>)
    ensures r.Err? ==> r.error.UnknownWordId? && r.error.id in ids && r.error.id !in idx2word
    decreases |ids|
  {
    if ids == [] then Ok([])
    else if ids[0] !in idx2word then Err(UnknownWordId(ids[0]))
    else if idx2word[ids[0]] == Start then CaptionWords(idx2word, ids[1..])
    else if idx2word[ids[0]] == End then Ok([])
    else PrependAll([idx2word[ids[0]]], CaptionWords(idx2word, ids[1..]))
  }

  lemma PrependAllAppend(a: seq<string>, b: seq<string>, r: Result<seq<string>>)
    ensures PrependAll([], r) == r
    ensures PrependAll(a, PrependAll(b, r)) == PrependAll(a + b, r)
  {
    if r.Ok? {
      assert [] + r.value == r.value;
      assert a + (b + r.value) == (a + b) + r.value;
    }
  }

  /** One step of the scan at position `i`, as both loops take it. */
  lemma CaptionWordsStep(idx2word: Vocabulary, ids: seq<int>, i: nat)
    requires i < |ids|
    ensures ids[i..][0] == ids[i] && ids[i..][1..] == ids[i + 1..]
    ensures ids[i] in idx2word && idx2word[ids[i]] != Start && idx2word[ids[i]] != End ==>
      CaptionWords(idx2word, ids[i..]) == PrependAll([idx2word[ids[i]]], CaptionWords(idx2word, ids[i + 1..]))
  {
  }

  /** The loop of `evaluate`: `continue` on a start word, then append or `break`. */
  method GreedyWords(idx2word: Vocabulary, wordIds: seq<int>) returns (r: Result<seq<string>>)
    ensures r == CaptionWords(idx2word, wordIds)
  {
    var words: seq<string> := [];
    var i := 0;
    assert wordIds[i..] == wordIds;
    PrependAllAppend([], [], CaptionWords(idx2word, wordIds));
    while i < |wordIds|
      invariant 0 <= i <= |wordIds|
      invariant CaptionWords(idx2word, wordIds) == PrependAll(words, CaptionWords(idx2word, wordIds[i..]))
    {
      var wordId := wordIds[i];
      CaptionWordsStep(idx2word, wordIds, i);
      if wordId !in idx2word {
        return Err(UnknownWordId(wordId));
      }
      if idx2word[wordId] == Start {
        i := i + 1;
        continue;
      }
      if idx2word[wordId] != End {
        PrependAllAppend(words, [idx2word[wordId]], CaptionWords(idx2word, wordIds[i + 1..]));
        words := words + [idx2word[wordId]];
      } else {
        break;
      }
      i := i + 1;
    }
    assert i == |wordIds| ==> wordIds[i..] == [];
    assert words + [] == words;
    return Ok(words);
  }

  /** The loop of `evaluate_with_beam_search`: one `if`/`elif`/`else` per id. */
  method BeamWords(idx2word: Vocabulary, wordIds: seq<int>) returns (r: Result<seq<string>>)
    ensures r == CaptionWords(idx2word, wordIds)
  {
    var words: seq<string> := [];
    var i := 0;
    assert wordIds[i..] == wordIds;
    PrependAllAppend([], [], CaptionWords(idx2word, wordIds));
    while i < |wordIds|
      invariant 0 <= i <= |wordIds|
      invariant CaptionWords(idx2word, wordIds) == PrependAll(words, CaptionWords(idx2word, wordIds[i..]))
    {
      var wordId := wordIds[i];
      CaptionWordsStep(idx2word, wordIds, i);
      if wordId !in idx2word {
        return Err(UnknownWordId(wordId));
      } else if idx2word[wordId] == Start {
      } else if idx2word[wordId] != End {
        PrependAllAppend(words, [idx2word[wordId]], CaptionWords(idx2word, wordIds[i + 1..]));
        words := words + [idx2word[wordId]];
      } else {
        break;
      }
      i := i + 1;
    }
    assert i == |wordIds| ==> wordIds[i..] == [];
    assert words + [] == words;
    return Ok(words);
  }

  /** Both loops give the same caption, or fail the same way, for the same ids. */
  method LoopsAgree(idx2word: Vocabulary, wordIds: seq<int>) returns (greedy: Result<seq<string>>, beam: Result<seq<string>>)
    ensures greedy == beam
  {
    greedy := GreedyWords(idx2word, wordIds);
    beam := BeamWords(idx2word, wordIds);
  }

  // An independent description of the same caption.

  /** The position at which the scan stops: the first unknown id or end word, or `|ids|`. */
  function StopIndex(idx2word: Vocabulary, ids: seq<int>): (k: nat)
    ensures k <= |ids|
    ensures forall j :: 0 <= j < k ==> ids[j] in idx2word && idx2word[ids[j]] != End
    ensures k < |ids| ==> ids[k] !in idx2word || idx2word[ids[k]] == End
    decreases |ids|
  {
    if ids == [] || ids[0] !in idx2word || idx2word[ids[0]] == End then 0
    else 1 + StopIndex(idx2word, ids[1..])
  }

  /** Every id mapped through the table. */
  function Lookup(idx2word: Vocabulary, ids: seq<int>): seq<string>
    requires forall j :: 0 <= j < |ids| ==> ids[j] in idx2word
  {
    seq(|ids|, j requires 0 <= j < |ids| => idx2word[ids[j]])
  }

  /** The words in order, with every start word removed. */
  function WithoutStart(words: seq<string>): (r: seq<string>)
    ensures forall w :: w in r <==> w in words && w != Start
    ensures multiset(r) == multiset(words)[Start := 0]
  {
    if words == [] then []
    else
      assert words == [words[0]] + words[1..];
      if words[0] == Start then WithoutStart(words[1..])
      else [words[0]] + WithoutStart(words[1..])
  }

  /**
   * The caption is the table's words for the ids before the first end word,
   * in order and without start words; it fails exactly when an id is unknown
   * before any end word, and then names the first such id.
   */
  lemma {:induction false} CaptionWordsCharacterised(idx2word: Vocabulary, ids: seq<int>)
    ensures var k := StopIndex(idx2word, ids);
      CaptionWords(idx2word, ids) ==
        if k < |ids| && ids[k] !in idx2word then Err(UnknownWordId(ids[k]))
        else Ok(WithoutStart(Lookup(idx2word, ids[..k])))
    decreases |ids|
  {
    if ids != [] && ids[0] in idx2word && idx2word[ids[0]] != End {
      var k := StopIndex(idx2word, ids);
      var k' := StopIndex(idx2word, ids[1..]);
      assert k == k' + 1;
      CaptionWordsCharacterised(idx2word, ids[1..]);
      assert ids[1..][..k'] == ids[..k][1..];
      assert Lookup(idx2word, ids[..k]) == [idx2word[ids[0]]] + Lookup(idx2word, ids[1..][..k']);
      if k < |ids| {
        assert ids[k] == ids[1..][k'];
      }
    }
  }

  /** No start or end word ever reaches a caption. */
  lemma {:induction false} NoSentinels(idx2word: Vocabulary, ids: seq<int>)
    requires CaptionWords(idx2word, ids).Ok?
    ensures Start !in CaptionWords(idx2word, ids).value
    ensures End !in CaptionWords(idx2word, ids).value
    decreases |ids|
  {
    if ids != [] && idx2word[ids[0]] != End {
      NoSentinels(idx2word, ids[1..]);
    }
  }

  /** A caption has at most as many words as there are ids. */
  lemma {:induction false} CaptionNoLonger(idx2word: Vocabulary, ids: seq<int>)
    requires CaptionWords(idx2word, ids).Ok?
    ensures |CaptionWords(idx2word, ids).value| <= |ids|
    decreases |ids|
  {
    if ids != [] && idx2word[ids[0]] != End {
      CaptionNoLonger(idx2word, ids[1..]);
    }
  }

  /** Nothing from an end word on counts: the ids before it give the same result. */
  lemma {:induction false} EndCutsOff(idx2word: Vocabulary, ids: seq<int>, k: nat)
    requires k < |ids| && ids[k] in idx2word && idx2word[ids[k]] == End
    ensures CaptionWords(idx2word, ids) == CaptionWords(idx2word, ids[..k])
    decreases k
  {
    if k > 0 {
      assert ids[..k][0] == ids[0];
      assert ids[..k][1..] == ids[1..][..k - 1];
      if ids[0] in idx2word && idx2word[ids[0]] != End {
        EndCutsOff(idx2word, ids[1..], k - 1);
      }
    }
  }

  /** Whatever follows an end word, even an unknown id, never changes the result. */
  lemma AppendAfterEnd(idx2word: Vocabulary, ids: seq<int>, k: nat, rest: seq<int>)
    requires k < |ids| && ids[k] in idx2word && idx2word[ids[k]] == End
    ensures CaptionWords(idx2word, ids + rest) == CaptionWords(idx2word, ids)
  {
    EndCutsOff(idx2word, ids, k);
    EndCutsOff(idx2word, ids + rest, k);
    assert (ids + rest)[..k] == ids[..k];
  }

  /** Without an end word every known word except the start words is kept, in order. */
  lemma NoEndKeepsEveryWord(idx2word: Vocabulary, ids: seq<int>)
    requires forall j :: 0 <= j < |ids| ==> ids[j] in idx2word && idx2word[ids[j]] != End
    ensures CaptionWords(idx2word, ids) == Ok(WithoutStart(Lookup(idx2word, ids)))
  {
    CaptionWordsCharacterised(idx2word, ids);
    assert ids[..|ids|] == ids;
  }
}
