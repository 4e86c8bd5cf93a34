# Image-captioning evaluation: caption post-processing

This project models the post-processing in `src/test.py` of the
image-captioning evaluation scripts. The two drivers are `evaluate`, which
uses greedy decoding, and `evaluate_with_beam_search`. The encoder and the
decoder are taken as given. Each test image comes with what the decoder
returned for it: a sequence of word ids for greedy decoding, or a list of
`(ids, score)` hypotheses for beam search. The model covers what the drivers
do with that output:

- **Detokenisation** (`Detokenise`). Each id is mapped through the
  vocabulary's `idx2word` table, modelled as a `map<int, string>`. A
  `<start>` word is skipped wherever it appears, the first `<end>` stops the
  scan, and every other word is kept in order. An id missing from the table
  raises `KeyError` in Python; here it is the error
  `UnknownWordId(id)`. Because lookups stop at the first `<end>`, an unknown
  id after it never fails. The greedy loop (`continue` on `<start>`) and the
  beam loop (`if`/`elif`/`else`) are two separate methods. Both are proved
  equal to one reference function, `CaptionWords`.
- **Scoring and ranking** (`Ranking`). Each hypothesis becomes
  `(' '.join(words), score / len(ids))`. The divisor counts every id,
  including `<start>` and `<end>` ids. A hypothesis with no ids raises
  `ZeroDivisionError` when its score is a Python number; here it is the
  error `EmptyHypothesis`. The list is then
  sorted by `sorted(..., key=score, reverse=True)`, which Python keeps stable.
  The model is an insertion sort, `Rank`. It is proved to give a
  non-increasing permutation in which equal scores keep their original order.
- **Records** (`Records`). There is one `{image_id, caption}` record per image,
  in dataset order. For beam search the caption is the one ranked first,
  `generated_captions[idx][0][0]`. The first image with an empty ranked list
  raises `IndexError`, which is the error `NoHypotheses(idx)` here.
- **Caption report** (`Report`). The text written to the caption file, one
  block per image:
  - a rule of 50 `*`;
  - the header `'-'*20 + 'generated_captions' + '-'*20`;
  - the generated caption, or for beam search every ranked caption, best first;
  - the header `'-'*20 + 'target_captions' + '-'*20`;
  - one line per target caption, its words joined by single spaces;
  - the rule again, then a blank line.

  Each `f.write` appends to the text. When no caption word contains a
  newline, reading the text back line by line is proved to give exactly
  these lines.
- **Drivers** (`Evaluation`). The per-image loops grow `image_ids`,
  `generated_captions` and `target_captions` side by side. Then come the
  record comprehension and the report writer. The first failure aborts the
  whole run, as an uncaught Python exception does.

`Results` holds the error type. `Text` holds `' '.join`, `c * n` and the
line-by-line writing, with its inverse `SplitLines`, and `str.split` as the inverse of the join.

The drivers have no exception handling. One image that fails to
detokenise, score or rank therefore ends the whole run; no image is
skipped.

## Model

| member | source | states |
|---|---|---|
| Detokenise.CaptionWords | src/test.py:45-52 | The reference reading of both loops, one id at a time. A failure is always `UnknownWordId` of an id of the input that the table lacks. Its full meaning is stated by `CaptionWordsCharacterised`. |
| Detokenise.GreedyWords | src/test.py:45-52 | The greedy `for` loop with `continue`/`break` returns exactly `CaptionWords` of the ids: the same words, or the same unknown-id error. |
| Detokenise.BeamWords | src/test.py:116-124 | The beam `if`/`elif`/`else` loop returns exactly `CaptionWords` of the ids. |
| Detokenise.LoopsAgree | src/test.py:45-124 | The greedy loop (lines 45-52) and the beam loop (lines 116-124) give the same result, error included, for the same ids. |
| Detokenise.StopIndex | src/test.py:46-52 | The position where the scan stops: every earlier id is known and is not `<end>`, and the id there is unknown or is `<end>`. |
| Detokenise.WithoutStart | src/test.py:47-48 | A word is in the result exactly when it is in the input and is not `<start>`. Every other word keeps its number of occurrences, and `<start>` has none. |
| Detokenise.CaptionWordsCharacterised | src/test.py:45-52 | The caption is the table's words for the ids before the first `<end>`, in order, with `<start>` removed. It fails exactly when an unknown id comes before any `<end>`, and then names the first such id. |
| Detokenise.NoSentinels | src/test.py:47-52 | A detokenised caption never contains `<start>` or `<end>`. |
| Detokenise.CaptionNoLonger | src/test.py:46-50 | A caption has at most as many words as there are ids. |
| Detokenise.EndCutsOff | src/test.py:49-52 | When id `k` maps to `<end>`, the result is the result of the ids before `k`. |
| Detokenise.AppendAfterEnd | src/test.py:49-52 | Ids appended after an `<end>`, even unknown ones, never change the result. |
| Detokenise.NoEndKeepsEveryWord | src/test.py:46-50 | With every id known and none mapping to `<end>`, every non-`<start>` word is kept, in order. |
| Ranking.Score | src/test.py:117-126 | A hypothesis gives an entry exactly when its ids detokenise and are non-empty. Its caption is the space-joined words. The unknown-id error comes first; then `EmptyHypothesis` for no ids. |
| Ranking.NormalisedByIdCount | src/test.py:126 | The normalised score times the number of ids, `<start>` and `<end>` included, is the raw score. |
| Ranking.ScoreAll | src/test.py:115-126 | On success there is one entry per hypothesis, in decoder order, each the hypothesis's `Score`. |
| Ranking.ScoreAllSucceeds | src/test.py:115-126 | When every hypothesis scores, the unsorted list is exactly their entries in order. |
| Ranking.ScoreAllFails | src/test.py:115-126 | Otherwise the loop fails with the failure of the first hypothesis that fails. |
| Ranking.InsertSorted | src/test.py:127 | Inserting into a non-increasing list keeps it non-increasing and adds exactly the new entry, as a multiset. |
| Ranking.Rank | src/test.py:127 | The sorted list is non-increasing in score and is a permutation of the input. |
| Ranking.InsertStable | src/test.py:127 | Insertion keeps the relative order of the entries of any one score. |
| Ranking.RankStable | src/test.py:127 | The sort is stable: for every score value, the entries with that score appear in their original order. |
| Ranking.RankTop | src/test.py:127 | The first ranked entry has the highest score in the list. |
| Ranking.RankedSentences | src/test.py:115-127 | A ranked list has one entry per hypothesis. |
| Ranking.RankedFirstIsBest | src/test.py:126-132 | The caption ranked first, which is `[0][0]`, belongs to a hypothesis of the image, and its score is at least that of every hypothesis. |
| Ranking.RankHypotheses | src/test.py:115-127 | The per-hypothesis loop followed by the sort returns exactly the ranked entries, or the first failure. |
| Records.GreedyRecords | src/test.py:58-59 | One record per image id, in order, whose caption is that image's words joined by spaces. |
| Records.BeamRecords | src/test.py:132-133 | One record per image id, in order, with the caption ranked first. If some list is empty, this fails with `NoHypotheses` of the first image whose list is empty. |
| Report.AppendBlock | src/test.py:66-73 | A block adds seven parts after the earlier lines and leaves those unchanged: the rule, the generated header, the generated lines, the target header, one joined line per target caption, the rule and a blank line. That is five fixed lines besides the generated and target lines. |
| Report.ReportLines | src/test.py:64-73 | The lines of the whole file: the blocks of the images in order, each appended after the blocks before it; `ReportLayout` states how it reads back. |
| Report.WriteLine | src/test.py:66-69 | One `f.write(line + '\n')` turns the text of the lines written so far into the text of those lines plus this one. |
| Report.WriteTargets | src/test.py:70-71 | Appends one line per target caption, its words joined by spaces. |
| Report.WriteSentences | src/test.py:142-143 | Appends one line per ranked caption, in ranked order. |
| Report.WriteGreedyCaptions | src/test.py:64-73 | The greedy caption file is the lines of one block per image, in dataset order, with the image's one caption as its generated section. |
| Report.WriteBeamCaptions | src/test.py:138-148 | The beam caption file is the lines of one block per image, with every ranked caption as its generated section. |
| Report.BlockNoNewlines | src/test.py:66-73 | A block adds no line break beyond the one ending each line, given words without newlines. |
| Report.BlockLayout | src/test.py:66-73 | When no generated line and no target word contains a newline, a block's text read back line by line is exactly: the rule, the generated header, the generated lines, the target header, the target lines, the rule and a blank line. |
| Report.ReportLayout | src/test.py:64-73 | When no caption word contains a newline, the whole caption file read back line by line is exactly its blocks' lines, image by image. |
| Text.Join | src/test.py:58 | `' '.join` of no words is empty. Otherwise its length is the words' total length plus one space between each pair. Every character is a space or comes from one of the words. |
| Text.SplitJoin | src/test.py:58 | For words without spaces, splitting the joined text at its spaces gives back exactly the words in order, so `' '.join` puts them in order, one space apart. |
| Text.Lines | src/test.py:66-73 | The text built by writing each line followed by a newline: its length is the lines' total length plus one newline per line. |
| Text.Repeat | src/test.py:66 | `c * n` has length `n` and consists of `c` only. |
| Text.SplitLinesOfLines | src/test.py:66-73 | Lines written one per `write(line + '\n')` are read back unchanged when none contains a newline. |
| Evaluation.FirstUndecoded | src/test.py:36-52 | The first image whose ids fail to detokenise, or the number of images. |
| Evaluation.DecodeImages | src/test.py:36-55 | The greedy per-image loop yields three lists of the same length. They hold every image's id, its caption and its target captions, in dataset order. Otherwise the first failure is returned. |
| Evaluation.Evaluate | src/test.py:36-73 | The greedy run fails exactly when some image fails, and then with the first failure. Otherwise it gives one record per image, in order, with the image's joined caption, and the caption report of all images. |
| Evaluation.FirstUnranked | src/test.py:107-127 | The first image whose hypotheses fail to score, or the number of images. |
| Evaluation.FirstWithoutHypotheses | src/test.py:132 | The first image for which the decoder returned no hypothesis, or the number of images. |
| Evaluation.RankImages | src/test.py:107-130 | The beam per-image loop yields three lists of the same length. They hold every image's id, its ranked list and its target captions, in dataset order. Otherwise the first scoring failure is returned. |
| Evaluation.EvaluateWithBeamSearch | src/test.py:107-148 | A scoring failure aborts the run first; otherwise the first image without hypotheses aborts it. On success there is one record per image, in order, with its caption ranked first, and the caption report of all ranked lists. |

## Left out

- Image transforms and normalisation constants: these are tensor operations.
- Model construction, `.to(device)` and checkpoint loading: these are framework calls and file reads.
- The encoder forward pass, `decoder.sample` and `decoder.decode_with_beam_search`. `model.py` is not part of this model, so the decoder's output is an input. Properties of the beam search itself (width 1 equals greedy decoding, a bounded caption length) are therefore not stated.
- `Dataset`, `get_test_item` and building the vocabulary: the samples and `idx2word` are given. Python's negative list indexing is not modelled: the table is a dictionary-like map.
- `print` calls, `os.path.join`, `open` and the JSON encoding of `json.dump`. The caption file is modelled as its text and the JSON file as its list of records.
- The undefined names `device`, `bleu_score_path` and `BLEU_score`, and the key typo `args['caption_fils']`. Each raises an exception in the plumbing. The model describes the drivers as if these names resolved, and leaves out the BLEU-score file.
- Floating-point scores: scores are `real`, so there is no rounding, no NaN and no infinity.
- The `IndexError` that a shorter `target_captions` or `generated_captions` list would raise in the comprehensions and writers. The drivers build the lists in step, so the record builders and writers require compatible lengths instead.
- Ranking.Score: assumes the beam score is a Python number. A tensor or NumPy score divided by zero gives `inf` or `nan` instead of raising, and `model.py`, which produces the score, is not part of this model.
