/** The `transform_query` node (core/graph/nodes/rewriter.py). */
module Rewriter {
  import opened Wrappers
  import opened GraphUtils

  /**
   * `transform_query`: one more transform attempt and one more iteration, the
   * question replaced by the rewriter's output for the current question, the
   * original question kept (or recorded, if it was absent), everything else
   * passed through and the fallback flags cleared.
   */
  function TransformQuery(s: State, rewrite: string -> string): (r: State)
    ensures r.transformAttempts == s.transformAttempts + 1
    ensures r.totalIterations == s.totalIterations + 1
    ensures r.generationAttempts == s.generationAttempts
    ensures r.question == rewrite(s.question)
    ensures r.originalQuestion == Some(OriginalOr(s))
    ensures r.documents == s.documents && r.generation == s.generation
    ensures r.modelConfig == s.modelConfig && r.collectionIds == s.collectionIds
    ensures !r.maxIterationsReached && !r.noRelevantDocsFallback && r.fallbackType == ""
  {
    State(
      question := rewrite(s.question),
      originalQuestion := Some(OriginalOr(s)),
      generation := s.generation,
      documents := s.documents,
      modelConfig := s.modelConfig,
      collectionIds := s.collectionIds,
      generationAttempts := s.generationAttempts,
      transformAttempts := s.transformAttempts + 1,
      totalIterations := s.totalIterations + 1,
      maxIterationsReached := false,
      noRelevantDocsFallback := false,
      fallbackType := "")
  }

  /** Applies the rewriter once per element of `rewrites`, in order. */
  function RewriteChain(s: State, rewrites: seq<string -> string>): State
    decreases |rewrites|
  {
    if rewrites == [] then s else RewriteChain(TransformQuery(s, rewrites[0]), rewrites[1..])
  }

  /**
   * However many times the question is rewritten, the original question stays
   * the one the first rewrite saw, and the transform counter grows by the number
   * of rewrites.
   */
  lemma {:induction false} RewritesKeepOriginal(s: State, rewrites: seq<string -> string>)
    ensures RewriteChain(s, rewrites).transformAttempts == s.transformAttempts + |rewrites|
    ensures rewrites != [] ==> RewriteChain(s, rewrites).originalQuestion == Some(OriginalOr(s))
    ensures RewriteChain(s, rewrites).generationAttempts == s.generationAttempts
    decreases |rewrites|
  {
    if rewrites != [] {
      RewritesKeepOriginal(TransformQuery(s, rewrites[0]), rewrites[1..]);
    }
  }
}
