/** Failures of the evaluation scripts, each standing for the Python exception it raises. */
module Results {

  datatype Error =
    /** `idx2word[word_id]` for an id the vocabulary does not hold (a `KeyError`). */
    | UnknownWordId(id: int)
    /** `score / len(ids)` for a beam hypothesis without ids (a `ZeroDivisionError` when the score is a Python number). */
    | EmptyHypothesis
    /** `generated_captions[idx][0]` for an image whose ranked list is empty (an `IndexError`). */
    | NoHypotheses(image: nat)

  /** Either the value a step computes or the exception that aborts it. */
  datatype Result<+T> = Ok(value: T) | Err(error: Error)
}
