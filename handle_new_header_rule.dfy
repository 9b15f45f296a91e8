/**
 * The header-continuity rule of the FLV pipeline. For every header action
 * of a batch it picks one canonical audio and one canonical video header,
 * compares them with the headers kept from earlier header actions, decides whether
 * the output must move to a new file, and replaces the header action with
 * the actions that say so. Every other action passes through unchanged.
 *
 * The pure functions (SelectHeader, Decide, Resolve, Step, RunBatch) are
 * the reference definition; the methods (DecideSplit, RunPerAction, Run)
 * follow the source step by step and are proved against them.
 */
module HandleNewHeaderRule {
  import opened FlvModel
  import opened FlvContext

  /** The header kept under `key`, or none when the key is missing or holds no tag. */
  function LastHeader(items: map<SessionKey, SessionItem>, key: SessionKey): (h: Option<Tag>)
    ensures h.Some? <==> key in items && items[key].HeaderTag?
    ensures h.Some? ==> items[key] == HeaderTag(h.value)
  {
    if key in items && items[key].HeaderTag? then Some(items[key].tag) else None
  }

  /** The header chosen from one group, and whether the group was in conflict. */
  datatype Selection = Selection(header: Option<Tag>, conflict: bool)

  /** Every tag after the first has a payload equal to the first tag's. */
  predicate AllMatchFirst(group: seq<Tag>)
    requires |group| > 0
  {
    forall i :: 1 <= i < |group| ==> SequenceEqual(group[0].binaryData, group[i].binaryData)
  }

  /**
   * Picks the canonical header of one kind: nothing for an empty group, the
   * first tag when every later one repeats its payload, and otherwise the
   * last tag, flagged as a conflict.
   */
  function SelectHeader(group: seq<Tag>): (s: Selection)
    ensures s.header.Some? <==> |group| > 0
    ensures s.conflict ==> |group| > 1 && !AllMatchFirst(group)
    ensures |group| > 0 && !s.conflict ==> s.header == Some(group[0]) && AllMatchFirst(group)
    ensures s.conflict ==> s.header == Some(group[|group| - 1])
  {
    if |group| == 0 then Selection(None, false)
    else if |group| > 1 then
      if AllMatchFirst(group) then Selection(Some(group[0]), false)
      else Selection(Some(group[|group| - 1]), true)
    else Selection(Some(group[0]), false)
  }

  /** The header in force for one kind after comparing with the last one, and the split flag. */
  datatype Decision = Decision(current: Option<Tag>, split: bool)

  /**
   * Compares the header just selected for one kind with the one kept from
   * earlier header actions. A split once decided is never undone, a header that
   * was received is kept, and a kind seen before never loses its header.
   */
  function Decide(last: Option<Tag>, current: Option<Tag>, split: bool): (d: Decision)
    ensures split ==> d.split
    ensures current.Some? ==> d.current == current
    ensures d.current.Some? <==> last.Some? || current.Some?
  {
    if last.None? then
      if current.None? then Decision(current, split)
      else Decision(current, true)
    else if current.None? then Decision(last, split)
    else if SequenceEqual(current.value.binaryData, last.value.binaryData) then Decision(current, split)
    else Decision(current, true)
  }

  /**
   * The four cases of the comparison with the last header: nothing kept and
   * nothing received changes nothing; a first header splits; a missing
   * header is carried forward from the last one; a received header splits
   * unless its payload equals the last one's.
   */
  lemma DecideCases(last: Option<Tag>, current: Option<Tag>, split: bool)
    ensures var d := Decide(last, current, split);
      && (last.None? && current.None? ==> d == Decision(None, split))
      && (last.None? && current.Some? ==> d == Decision(current, true))
      && (last.Some? && current.None? ==> d == Decision(last, split))
      && (last.Some? && current.Some? ==>
            d.current == current &&
            (d.split <==> split || !SequenceEqual(current.value.binaryData, last.value.binaryData)))
  {
  }

  /**
   * The source's `DecideSplit`, whose `ref` parameters become an in-parameter
   * for the last header (never assigned) and out-parameters for the current
   * header and the split flag. DecideCases spells out what it does.
   */
  method DecideSplit(lastHeader: Option<Tag>, currentHeader: Option<Tag>, splitFile: bool)
    returns (current: Option<Tag>, split: bool)
    ensures Decision(current, split) == Decide(lastHeader, currentHeader, splitFile)
  {
    current, split := currentHeader, splitFile;
    if lastHeader.None? {
      if currentHeader.None? {
        // never seen and not received now: nothing to do
      } else {
        split := true;
      }
    } else {
      if currentHeader.None? {
        current := lastHeader;
      } else {
        if SequenceEqual(currentHeader.value.binaryData, lastHeader.value.binaryData) {
          // same content: keep going in the current file
        } else {
          split := true;
        }
      }
    }
  }

  /** Everything the rule decides about one header action. */
  datatype Resolution = Resolution(
    video: Option<Tag>,
    audio: Option<Tag>,
    multiple: bool,
    split: bool,
    notFirstTime: bool)

  /** The decisions for a header action with tags `allTags`, given the session store before it. */
  function Resolve(items: map<SessionKey, SessionItem>, allTags: seq<Tag>): (r: Resolution)
    ensures r.multiple ==> r.split
    ensures r.notFirstTime <==> LastHeader(items, VideoHeaderKey).Some? || LastHeader(items, AudioHeaderKey).Some?
  {
    var lastVideo := LastHeader(items, VideoHeaderKey);
    var lastAudio := LastHeader(items, AudioHeaderKey);
    var video := SelectHeader(TagsOfKind(allTags, Video));
    var audio := SelectHeader(TagsOfKind(allTags, Audio));
    var multiple := video.conflict || audio.conflict;
    var dv := Decide(lastVideo, video.header, multiple);
    var da := Decide(lastAudio, audio.header, dv.split);
    Resolution(dv.current, da.current, multiple, da.split, lastAudio.Some? || lastVideo.Some?)
  }

  /** The store after a header action: each kind that resolved to a header keeps it. */
  function Store(items: map<SessionKey, SessionItem>, r: Resolution): (stored: map<SessionKey, SessionItem>)
    ensures LastHeader(stored, VideoHeaderKey) == if r.video.Some? then r.video else LastHeader(items, VideoHeaderKey)
    ensures LastHeader(stored, AudioHeaderKey) == if r.audio.Some? then r.audio else LastHeader(items, AudioHeaderKey)
  {
    var withVideo := if r.video.Some? then items[VideoHeaderKey := HeaderTag(r.video.value)] else items;
    if r.audio.Some? then withVideo[AudioHeaderKey := HeaderTag(r.audio.value)] else withVideo
  }

  /**
   * The actions that replace a header action, in their fixed order: the
   * new-file marker, the header announcement, the log of the raw tags.
   */
  function Emitted(r: Resolution, allTags: seq<Tag>): (out: seq<PipelineAction>)
    ensures |out| <= 3
    ensures out == [] <==> !r.split && !r.multiple
  {
    (if r.notFirstTime && r.split then [NewFileAction] else []) +
    (if r.split then [HeaderAction([], r.audio, r.video)] else []) +
    (if r.multiple then [LogAlternativeHeaderAction(allTags)] else [])
  }

  /** The comments a header action adds. */
  function Added(r: Resolution): (added: seq<Comment>)
    ensures |added| <= 1
    ensures added == [] <==> !r.multiple && !(r.notFirstTime && r.split)
  {
    (if r.multiple then [MultipleHeaderComment] else []) +
    (if r.notFirstTime && r.split && !r.multiple then [SplitFileComment] else [])
  }

  /** What one action turns into: the new store, the actions emitted in its place, the comments added. */
  datatype StepResult = StepResult(items: map<SessionKey, SessionItem>, outputs: seq<PipelineAction>, comments: seq<Comment>)

  /**
   * The reference definition of the rule on one action: a header action is
   * replaced by at most three actions and adds at most one comment; any
   * other action is kept as it is.
   */
  function Step(items: map<SessionKey, SessionItem>, action: PipelineAction): (s: StepResult)
    ensures |s.outputs| <= 3 && |s.comments| <= 1
  {
    match action
    case HeaderAction(allTags, _, _) =>
      var r := Resolve(items, allTags);
      StepResult(Store(items, r), Emitted(r, allTags), Added(r))
    case _ => StepResult(items, [action], [])
  }

  /** The result of running the rule over a whole batch. */
  datatype BatchResult = BatchResult(items: map<SessionKey, SessionItem>, outputs: seq<PipelineAction>, comments: seq<Comment>)

  /**
   * The reference definition of the rule on a batch: every action is
   * replaced by what it yields, in order, with the store threaded through.
   */
  function RunBatch(items: map<SessionKey, SessionItem>, actions: seq<PipelineAction>): (b: BatchResult)
    decreases |actions|
  {
    if actions == [] then BatchResult(items, [], [])
    else
      var prefix := RunBatch(items, actions[..|actions| - 1]);
      var s := Step(prefix.items, actions[|actions| - 1]);
      BatchResult(s.items, prefix.outputs + s.outputs, prefix.comments + s.comments)
  }

  /** Running the rule on one more action of a batch extends the result by that action's step. */
  lemma RunBatchExtend(items: map<SessionKey, SessionItem>, actions: seq<PipelineAction>, i: nat)
    requires i < |actions|
    ensures var done := RunBatch(items, actions[..i]);
      var s := Step(done.items, actions[i]);
      RunBatch(items, actions[..i + 1]) == BatchResult(s.items, done.outputs + s.outputs, done.comments + s.comments)
  {
    assert actions[..i + 1][..i] == actions[..i];
  }

  /**
   * The source's `RunPerAction`: a header action is handled by RunOnHeader,
   * any other action is returned unchanged as the only output.
   */
  method RunPerAction(context: FlvProcessingContext, action: PipelineAction)
    returns (outputs: seq<PipelineAction>)
    modifies context`sessionItems, context`comments
    ensures var s := Step(old(context.sessionItems), action);
      outputs == s.outputs &&
      context.sessionItems == s.items &&
      context.comments == old(context.comments) + s.comments
  {
    if action.HeaderAction? {
      outputs := RunOnHeader(context, action.allTags);
    } else {
      outputs := [action];
    }
  }

  /**
   * The header branch of `RunPerAction`: reads the last headers from the
   * session store, selects and compares, writes the resolved headers back,
   * adds comments and returns the actions that replace the header action.
   */
  method RunOnHeader(context: FlvProcessingContext, allTags: seq<Tag>)
    returns (outputs: seq<PipelineAction>)
    modifies context`sessionItems, context`comments
    ensures var r := Resolve(old(context.sessionItems), allTags);
      outputs == Emitted(r, allTags) &&
      context.sessionItems == Store(old(context.sessionItems), r) &&
      context.comments == old(context.comments) + Added(r)
  {
    ghost var items := context.sessionItems;
    ghost var r := Resolve(items, allTags);
    ghost var newFile: seq<PipelineAction> := if r.notFirstTime && r.split then [NewFileAction] else [];
    ghost var announce: seq<PipelineAction> := if r.split then [HeaderAction([], r.audio, r.video)] else [];
    ghost var logAlt: seq<PipelineAction> := if r.multiple then [LogAlternativeHeaderAction(allTags)] else [];
    ghost var multipleComment: seq<Comment> := if r.multiple then [MultipleHeaderComment] else [];
    ghost var splitComment: seq<Comment> := if r.notFirstTime && r.split && !r.multiple then [SplitFileComment] else [];

    var lastVideoHeader := LastHeader(context.sessionItems, VideoHeaderKey);
    var lastAudioHeader := LastHeader(context.sessionItems, AudioHeaderKey);

    var multipleHeaderPresent := false;
    var video := SelectHeader(TagsOfKind(allTags, Video));
    multipleHeaderPresent := multipleHeaderPresent || video.conflict;
    var audio := SelectHeader(TagsOfKind(allTags, Audio));
    multipleHeaderPresent := multipleHeaderPresent || audio.conflict;
    assert multipleHeaderPresent == r.multiple;

    if multipleHeaderPresent {
      context.AddComment(MultipleHeaderComment);
    }
    assert context.comments == old(context.comments) + multipleComment;

    var splitFile := multipleHeaderPresent;
    var currentVideoHeader, currentAudioHeader;
    currentVideoHeader, splitFile := DecideSplit(lastVideoHeader, video.header, splitFile);
    currentAudioHeader, splitFile := DecideSplit(lastAudioHeader, audio.header, splitFile);
    assert currentVideoHeader == r.video && currentAudioHeader == r.audio && splitFile == r.split;

    if currentVideoHeader.Some? {
      context.sessionItems := context.sessionItems[VideoHeaderKey := HeaderTag(currentVideoHeader.value)];
    }
    if currentAudioHeader.Some? {
      context.sessionItems := context.sessionItems[AudioHeaderKey := HeaderTag(currentAudioHeader.value)];
    }
    assert context.sessionItems == Store(items, r);

    var notFirstTime := lastAudioHeader.Some? || lastVideoHeader.Some?;
    assert notFirstTime == r.notFirstTime;

    if notFirstTime && splitFile && !multipleHeaderPresent {
      context.AddComment(SplitFileComment);
    }
    assert context.comments == old(context.comments) + multipleComment + splitComment;
    assert multipleComment + splitComment == Added(r);

    outputs := [];
    if notFirstTime && splitFile {
      outputs := outputs + [NewFileAction];
    }
    assert outputs == newFile;
    if splitFile {
      outputs := outputs + [HeaderAction([], currentAudioHeader, currentVideoHeader)];
    }
    assert outputs == newFile + announce;
    if multipleHeaderPresent {
      outputs := outputs + [LogAlternativeHeaderAction(allTags)];
    }
    assert outputs == newFile + announce + logAlt == Emitted(r, allTags);
  }

  /**
   * The source's `Run`: rewrites the whole batch action by action, then
   * hands it to `next`, the rest of the rule chain.
   */
  method Run(context: FlvProcessingContext, next: seq<PipelineAction> -> seq<PipelineAction>)
    modifies context
    ensures var b := RunBatch(old(context.sessionItems), old(context.actions));
      context.actions == next(b.outputs) &&
      context.sessionItems == b.items &&
      context.comments == old(context.comments) + b.comments
  {
    var input := context.actions;
    ghost var initial, logged := context.sessionItems, context.comments;
    var rewritten: seq<PipelineAction> := [];
    var i := 0;
    while i < |input|
      invariant 0 <= i <= |input|
      invariant rewritten == RunBatch(initial, input[..i]).outputs
      invariant context.sessionItems == RunBatch(initial, input[..i]).items
      invariant context.comments == logged + RunBatch(initial, input[..i]).comments
    {
      ghost var done := RunBatch(initial, input[..i]);
      ghost var s := Step(done.items, input[i]);
      var produced := RunPerAction(context, input[i]);
      assert produced == s.outputs && context.sessionItems == s.items;
      assert context.comments == logged + (done.comments + s.comments);
      rewritten := rewritten + produced;
      RunBatchExtend(initial, input, i);
      i := i + 1;
    }
    assert input[..i] == input;
    context.actions := rewritten;
    context.actions := next(context.actions);
  }
}
