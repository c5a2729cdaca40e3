/**
 * The size-safety gate of `batch_solr_request`: results below one million
 * are fetched into memory directly; otherwise the user is asked first.
 */
module Gate {

  const Threshold: nat := 1000000

  /** What happens after the count is known and no file export returned first. */
  datatype Decision =
    | Accumulate    // fetch every page into one table
    | Abort         // the user typed "n" or "exit": the process exits
    | FallThrough   // any other answer matches no case: the function returns None

  /** Whether the user is asked at all: `not (num_results < 1000000 and not download)`. */
  predicate Prompts(numResults: nat, download: bool)
  {
    !(numResults < Threshold && !download)
  }

  /** The decision for a count, the download flag and the user's answer to the prompt. */
  function Decide(numResults: nat, download: bool, answer: string): Decision
  {
    if !Prompts(numResults, download) then Accumulate
    else if answer == "n" || answer == "exit" then Abort
    else if answer == "y" || answer == "" then Accumulate
    else FallThrough
  }

  /** Below the threshold, without download, the answer is never consulted. */
  lemma SmallCountIgnoresAnswer(numResults: nat, answer: string, other: string)
    requires numResults < Threshold
    ensures !Prompts(numResults, false)
    ensures Decide(numResults, false, answer) == Decide(numResults, false, other) == Accumulate
  {
  }

  /** Once asked: "n"/"exit" abort, "y"/"" accept, anything else falls through. */
  lemma PromptAnswers(numResults: nat, download: bool, answer: string)
    requires Prompts(numResults, download)
    ensures Decide(numResults, download, answer) == Abort <==> answer in {"n", "exit"}
    ensures Decide(numResults, download, answer) == Accumulate <==> answer in {"y", ""}
    ensures Decide(numResults, download, answer) == FallThrough <==> answer !in {"n", "exit", "y", ""}
  {
  }
}
