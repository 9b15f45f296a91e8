/**
 * The per-session processing context the rules work on: the batch of
 * actions being rewritten, the session item store that survives from one
 * batch to the next, and the comment log.
 */
module FlvContext {
  import opened FlvModel

  class FlvProcessingContext {
    /** The current batch of actions. */
    var actions: seq<PipelineAction>
    /** Rule-owned values kept for the whole recording session. */
    var sessionItems: map<SessionKey, SessionItem>
    /** Diagnostic comments added while processing. */
    var comments: seq<Comment>

    /** Appends one comment to the log. */
    method AddComment(comment: Comment)
      modifies this`comments
      ensures comments == old(comments) + [comment]
    {
      comments := comments + [comment];
    }
  }
}
