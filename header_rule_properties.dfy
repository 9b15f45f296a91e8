/**
 * What the header-continuity rule guarantees, stated over its reference
 * definition (Resolve, Step, RunBatch): pass-through of other actions,
 * the per-kind state machine of the session store, when a new file is
 * started, the order of what is emitted, silence on unchanged headers,
 * conflicts, and end-to-end scenarios of a recording session.
 */
module HeaderRuleProperties {
  import opened FlvModel
  import opened HandleNewHeaderRule

  // ---------------------------------------------------------------------
  // Actions other than headers
  // ---------------------------------------------------------------------

  /** The actions this rule neither reads nor emits, in order. */
  function Foreign(actions: seq<PipelineAction>): (r: seq<PipelineAction>)
    ensures |r| <= |actions|
  {
    if actions == [] then []
    else (if actions[0].DataAction? || actions[0].OtherAction? then [actions[0]] else []) + Foreign(actions[1..])
  }

  /** The foreign actions are exactly the data actions and the actions of other rules. */
  lemma {:induction false} ForeignMembers(actions: seq<PipelineAction>)
    ensures forall a :: a in Foreign(actions) <==> a in actions && (a.DataAction? || a.OtherAction?)
  {
    if actions != [] {
      ForeignMembers(actions[1..]);
      assert actions == [actions[0]] + actions[1..];
    }
  }

  lemma {:induction false} ForeignAppend(a: seq<PipelineAction>, b: seq<PipelineAction>)
    ensures Foreign(a + b) == Foreign(a) + Foreign(b)
  {
    if a == [] {
      assert a + b == b;
    } else {
      var head: seq<PipelineAction> := if a[0].DataAction? || a[0].OtherAction? then [a[0]] else [];
      assert (a + b)[0] == a[0] && (a + b)[1..] == a[1..] + b;
      ForeignAppend(a[1..], b);
      assert Foreign(a + b) == head + Foreign(a[1..] + b);
      assert Foreign(a) == head + Foreign(a[1..]);
      assert head + (Foreign(a[1..]) + Foreign(b)) == (head + Foreign(a[1..])) + Foreign(b);
    }
  }

  /** A non-header action is replaced by itself alone, and touches neither the store nor the log. */
  lemma NonHeaderPassesThrough(items: map<SessionKey, SessionItem>, action: PipelineAction)
    requires !action.HeaderAction?
    ensures Step(items, action) == StepResult(items, [action], [])
  {
  }

  /** A batch without header actions comes out exactly as it went in. */
  lemma {:induction false} BatchWithoutHeadersIsUnchanged(items: map<SessionKey, SessionItem>, actions: seq<PipelineAction>)
    requires forall i :: 0 <= i < |actions| ==> !actions[i].HeaderAction?
    ensures RunBatch(items, actions) == BatchResult(items, actions, [])
  {
    if actions != [] {
      var n := |actions| - 1;
      var init, last := actions[..n], actions[n];
      BatchWithoutHeadersIsUnchanged(items, init);
      NonHeaderPassesThrough(items, last);
      var b := RunBatch(items, actions);
      assert b.items == items && b.comments == [];
      assert b.outputs == init + [last];
      assert init + [last] == actions;
    }
  }

  /** Data actions and the actions of other rules keep their relative order through a batch. */
  lemma {:induction false} ForeignActionsKeepOrder(items: map<SessionKey, SessionItem>, actions: seq<PipelineAction>)
    ensures Foreign(RunBatch(items, actions).outputs) == Foreign(actions)
  {
    if actions != [] {
      var n := |actions| - 1;
      var init, last := actions[..n], actions[n];
      ForeignActionsKeepOrder(items, init);
      var done := RunBatch(items, init);
      var s := Step(done.items, last);
      var outputs := RunBatch(items, actions).outputs;
      assert outputs == done.outputs + s.outputs;
      ForeignAppend(done.outputs, s.outputs);
      ForeignOfStep(done.items, last);
      assert Foreign(outputs) == Foreign(init) + Foreign([last]);
      ForeignAppend(init, [last]);
      assert init + [last] == actions;
    }
  }

  /** A sequence made only of the rule's own actions holds no foreign action. */
  lemma NoForeign(actions: seq<PipelineAction>)
    requires forall i :: 0 <= i < |actions| ==> !actions[i].DataAction? && !actions[i].OtherAction?
    ensures Foreign(actions) == []
  {
    ForeignMembers(actions);
    if Foreign(actions) != [] {
      assert Foreign(actions)[0] in Foreign(actions);
    }
  }

  /** The actions that replace a header action are all the rule's own. */
  lemma ForeignOfEmitted(r: Resolution, allTags: seq<Tag>)
    ensures Foreign(Emitted(r, allTags)) == []
  {
    var newFile: seq<PipelineAction> := if r.notFirstTime && r.split then [NewFileAction] else [];
    var announce: seq<PipelineAction> := if r.split then [HeaderAction([], r.audio, r.video)] else [];
    var log: seq<PipelineAction> := if r.multiple then [LogAlternativeHeaderAction(allTags)] else [];
    assert Emitted(r, allTags) == newFile + announce + log;
    NoForeign(newFile);
    NoForeign(announce);
    NoForeign(log);
    ForeignAppend(newFile + announce, log);
    ForeignAppend(newFile, announce);
  }

  /** What one action yields holds the same foreign actions as the action itself. */
  lemma ForeignOfStep(items: map<SessionKey, SessionItem>, action: PipelineAction)
    ensures Foreign(Step(items, action).outputs) == Foreign([action])
  {
    if action.HeaderAction? {
      var r := Resolve(items, action.allTags);
      assert Step(items, action).outputs == Emitted(r, action.allTags);
      ForeignOfEmitted(r, action.allTags);
      NoForeign([action]);
    } else {
      NonHeaderPassesThrough(items, action);
    }
  }

  // ---------------------------------------------------------------------
  // The session store: one {Unseen, Seen(header)} slot per kind
  // ---------------------------------------------------------------------

  /** The canonical header of a kind is the one just selected, or else the one kept from before. */
  lemma ResolvedHeaders(items: map<SessionKey, SessionItem>, allTags: seq<Tag>)
    ensures var r := Resolve(items, allTags);
      var video := SelectHeader(TagsOfKind(allTags, Video)).header;
      var audio := SelectHeader(TagsOfKind(allTags, Audio)).header;
      && r.video == (if video.Some? then video else LastHeader(items, VideoHeaderKey))
      && r.audio == (if audio.Some? then audio else LastHeader(items, AudioHeaderKey))
  {
  }

  /** Around the tag at index `i`, the group of its kind is the group before it, the tag, and the group after it. */
  lemma TagsOfKindAround(tags: seq<Tag>, kind: TagType, i: nat)
    requires i < |tags| && tags[i].kind == kind
    ensures TagsOfKind(tags, kind) == TagsOfKind(tags[..i], kind) + [tags[i]] + TagsOfKind(tags[i + 1..], kind)
  {
    assert tags == tags[..i] + [tags[i]] + tags[i + 1..];
    TagsOfKindAppend(tags[..i] + [tags[i]], tags[i + 1..], kind);
    TagsOfKindAppend(tags[..i], [tags[i]], kind);
    TagsOfKindSingle(tags[i], kind);
  }

  /**
   * On a conflict the canonical header of a kind is the last tag of that
   * kind in arrival order, whatever tags of other kinds follow it.
   */
  lemma ConflictPicksLastTagOfKind(items: map<SessionKey, SessionItem>, allTags: seq<Tag>, kind: TagType, i: nat)
    requires i < |allTags| && allTags[i].kind == kind
    requires forall j :: i < j < |allTags| ==> allTags[j].kind != kind
    requires SelectHeader(TagsOfKind(allTags, kind)).conflict
    ensures SelectHeader(TagsOfKind(allTags, kind)).header == Some(allTags[i])
    ensures kind == Video ==> Resolve(items, allTags).video == Some(allTags[i])
    ensures kind == Audio ==> Resolve(items, allTags).audio == Some(allTags[i])
  {
    TagsOfKindAround(allTags, kind, i);
    var after := allTags[i + 1..];
    assert forall k :: 0 <= k < |after| ==> after[k] == allTags[i + 1 + k];
    TagsOfKindUniform(after, kind);
    ResolvedHeaders(items, allTags);
  }

  /**
   * Without a conflict the canonical header of a kind is the first tag of
   * that kind in arrival order, whatever tags of other kinds precede it.
   */
  lemma AgreementPicksFirstTagOfKind(items: map<SessionKey, SessionItem>, allTags: seq<Tag>, kind: TagType, i: nat)
    requires i < |allTags| && allTags[i].kind == kind
    requires forall j :: 0 <= j < i ==> allTags[j].kind != kind
    requires !SelectHeader(TagsOfKind(allTags, kind)).conflict
    ensures SelectHeader(TagsOfKind(allTags, kind)).header == Some(allTags[i])
    ensures kind == Video ==> Resolve(items, allTags).video == Some(allTags[i])
    ensures kind == Audio ==> Resolve(items, allTags).audio == Some(allTags[i])
  {
    TagsOfKindAround(allTags, kind, i);
    var before := allTags[..i];
    assert forall k :: 0 <= k < |before| ==> before[k] == allTags[k];
    TagsOfKindUniform(before, kind);
    ResolvedHeaders(items, allTags);
  }

  /** After a header action each slot holds exactly the canonical header resolved for its kind. */
  lemma StepStoresResolvedHeaders(items: map<SessionKey, SessionItem>, allTags: seq<Tag>, audio: Option<Tag>, video: Option<Tag>)
    ensures var r := Resolve(items, allTags);
      var s := Step(items, HeaderAction(allTags, audio, video));
      LastHeader(s.items, VideoHeaderKey) == r.video && LastHeader(s.items, AudioHeaderKey) == r.audio
  {
  }

  /** One action never empties a slot that holds a header. */
  lemma StepKeepsSlot(items: map<SessionKey, SessionItem>, action: PipelineAction, key: SessionKey)
    requires key == VideoHeaderKey || key == AudioHeaderKey
    requires LastHeader(items, key).Some?
    ensures LastHeader(Step(items, action).items, key).Some?
  {
    if action.HeaderAction? {
      StepStoresResolvedHeaders(items, action.allTags, action.audioHeader, action.videoHeader);
    }
  }

  /** Once a kind has been seen in a session its slot is never cleared, whatever the batch. */
  lemma {:induction false} SlotsNeverCleared(items: map<SessionKey, SessionItem>, actions: seq<PipelineAction>, key: SessionKey)
    requires key == VideoHeaderKey || key == AudioHeaderKey
    requires LastHeader(items, key).Some?
    ensures LastHeader(RunBatch(items, actions).items, key).Some?
  {
    if actions != [] {
      SlotsNeverCleared(items, actions[..|actions| - 1], key);
      StepKeepsSlot(RunBatch(items, actions[..|actions| - 1]).items, actions[|actions| - 1], key);
    }
  }

  /** One action leaves every key of other rules as it was. */
  lemma StepKeepsOtherKeys(items: map<SessionKey, SessionItem>, action: PipelineAction, key: SessionKey)
    requires key != VideoHeaderKey && key != AudioHeaderKey
    ensures var after := Step(items, action).items;
      (key in after <==> key in items) && (key in items ==> after[key] == items[key])
  {
    if action.HeaderAction? {
      var r := Resolve(items, action.allTags);
      assert Step(items, action).items == Store(items, r);
    }
  }

  /** A whole batch leaves every key of other rules in the shared store as it was. */
  lemma {:induction false} BatchKeepsOtherKeys(items: map<SessionKey, SessionItem>, actions: seq<PipelineAction>, key: SessionKey)
    requires key != VideoHeaderKey && key != AudioHeaderKey
    ensures var after := RunBatch(items, actions).items;
      (key in after <==> key in items) && (key in items ==> after[key] == items[key])
  {
    if actions != [] {
      var n := |actions| - 1;
      BatchKeepsOtherKeys(items, actions[..n], key);
      StepKeepsOtherKeys(RunBatch(items, actions[..n]).items, actions[n], key);
    }
  }

  /** The video slot holds a video tag and the audio slot an audio tag. */
  predicate SlotsHoldTheirKind(items: map<SessionKey, SessionItem>)
  {
    && (LastHeader(items, VideoHeaderKey).Some? ==> LastHeader(items, VideoHeaderKey).value.kind == Video)
    && (LastHeader(items, AudioHeaderKey).Some? ==> LastHeader(items, AudioHeaderKey).value.kind == Audio)
  }

  /** Canonical headers have the kind of their slot. */
  lemma ResolvedHeadersHaveTheirKind(items: map<SessionKey, SessionItem>, allTags: seq<Tag>)
    requires SlotsHoldTheirKind(items)
    ensures var r := Resolve(items, allTags);
      && (r.video.Some? ==> r.video.value.kind == Video && (r.video.value in allTags || r.video == LastHeader(items, VideoHeaderKey)))
      && (r.audio.Some? ==> r.audio.value.kind == Audio && (r.audio.value in allTags || r.audio == LastHeader(items, AudioHeaderKey)))
  {
    ResolvedHeaders(items, allTags);
    TagsOfKindMembers(allTags, Video);
    TagsOfKindMembers(allTags, Audio);
    var videoGroup, audioGroup := TagsOfKind(allTags, Video), TagsOfKind(allTags, Audio);
    if |videoGroup| > 0 {
      assert videoGroup[0] in videoGroup && videoGroup[|videoGroup| - 1] in videoGroup;
    }
    if |audioGroup| > 0 {
      assert audioGroup[0] in audioGroup && audioGroup[|audioGroup| - 1] in audioGroup;
    }
  }

  /** The rule keeps the store well-kinded across a whole batch. */
  lemma {:induction false} BatchKeepsSlotsOfTheirKind(items: map<SessionKey, SessionItem>, actions: seq<PipelineAction>)
    requires SlotsHoldTheirKind(items)
    ensures SlotsHoldTheirKind(RunBatch(items, actions).items)
  {
    if actions != [] {
      var init, last := actions[..|actions| - 1], actions[|actions| - 1];
      BatchKeepsSlotsOfTheirKind(items, init);
      var done := RunBatch(items, init);
      if last.HeaderAction? {
        ResolvedHeadersHaveTheirKind(done.items, last.allTags);
        StepStoresResolvedHeaders(done.items, last.allTags, last.audioHeader, last.videoHeader);
      }
    }
  }

  // ---------------------------------------------------------------------
  // What a header action is replaced by
  // ---------------------------------------------------------------------

  /** Position of each emitted kind in the fixed output order. */
  function Rank(action: PipelineAction): nat
  {
    match action
    case NewFileAction => 0
    case HeaderAction(_, _, _) => 1
    case _ => 2
  }

  /**
   * A header action becomes: a new-file marker exactly when the session
   * had a header before and a split was decided; a header announcement,
   * with no tags and the canonical headers, exactly when a split was
   * decided; the log of the original tags exactly on a conflict; in that
   * order and each at most once.
   */
  lemma HeaderActionOutputs(items: map<SessionKey, SessionItem>, allTags: seq<Tag>, audio: Option<Tag>, video: Option<Tag>)
    ensures var r := Resolve(items, allTags);
      var out := Step(items, HeaderAction(allTags, audio, video)).outputs;
      var announcement := HeaderAction([], r.audio, r.video);
      && (NewFileAction in out <==> r.notFirstTime && r.split)
      && (announcement in out <==> r.split)
      && (LogAlternativeHeaderAction(allTags) in out <==> r.multiple)
      && (forall i :: 0 <= i < |out| ==>
            out[i] == NewFileAction || out[i] == announcement || out[i] == LogAlternativeHeaderAction(allTags))
      && (forall i, j :: 0 <= i < j < |out| ==> Rank(out[i]) < Rank(out[j]))
  {
    var r := Resolve(items, allTags);
    assert Step(items, HeaderAction(allTags, audio, video)).outputs == Emitted(r, allTags);
    EmittedShape(r, allTags);
  }

  /** The shape of what replaces a header action, for any resolution in which a conflict implies a split. */
  lemma EmittedShape(r: Resolution, allTags: seq<Tag>)
    requires r.multiple ==> r.split
    ensures var out := Emitted(r, allTags);
      var announcement := HeaderAction([], r.audio, r.video);
      && (NewFileAction in out <==> r.notFirstTime && r.split)
      && (announcement in out <==> r.split)
      && (LogAlternativeHeaderAction(allTags) in out <==> r.multiple)
      && (forall i :: 0 <= i < |out| ==>
            out[i] == NewFileAction || out[i] == announcement || out[i] == LogAlternativeHeaderAction(allTags))
      && (forall i, j :: 0 <= i < j < |out| ==> Rank(out[i]) < Rank(out[j]))
  {
    var out := Emitted(r, allTags);
    var announcement := HeaderAction([], r.audio, r.video);
    var log := LogAlternativeHeaderAction(allTags);
    if !r.split {
      assert out == [];
    } else if r.notFirstTime && r.multiple {
      assert out == [NewFileAction, announcement, log];
    } else if r.notFirstTime {
      assert out == [NewFileAction, announcement];
    } else if r.multiple {
      assert out == [announcement, log];
    } else {
      assert out == [announcement];
    }
  }

  /** A new file is started exactly when the session had a header of either kind before and a split was decided. */
  lemma NewFileOnlyAfterFirstHeader(items: map<SessionKey, SessionItem>, allTags: seq<Tag>, audio: Option<Tag>, video: Option<Tag>)
    ensures var s := Step(items, HeaderAction(allTags, audio, video));
      var r := Resolve(items, allTags);
      (NewFileAction in s.outputs <==>
        (LastHeader(items, VideoHeaderKey).Some? || LastHeader(items, AudioHeaderKey).Some?) && r.split)
      && (SplitFileComment in s.comments <==> NewFileAction in s.outputs && !r.multiple)
  {
    HeaderActionOutputs(items, allTags, audio, video);
  }

  /**
   * The first header of a session opens the first file: it is announced,
   * with no new-file marker before it and no "header changed" comment.
   */
  lemma FirstHeaderOfSession(items: map<SessionKey, SessionItem>, allTags: seq<Tag>, audio: Option<Tag>, video: Option<Tag>, t: Tag)
    requires LastHeader(items, VideoHeaderKey).None? && LastHeader(items, AudioHeaderKey).None?
    requires t in allTags && (t.kind == Audio || t.kind == Video)
    ensures var s := Step(items, HeaderAction(allTags, audio, video));
      var r := Resolve(items, allTags);
      && NewFileAction !in s.outputs
      && SplitFileComment !in s.comments
      && |s.outputs| > 0 && s.outputs[0] == HeaderAction([], r.audio, r.video)
      && (t.kind == Video ==> r.video.Some?) && (t.kind == Audio ==> r.audio.Some?)
  {
    TagsOfKindMembers(allTags, t.kind);
    assert t in TagsOfKind(allTags, t.kind);
  }

  /** Whether a selected header leaves its kind as it was: nothing selected, or the same payload as kept. */
  predicate SameAsKept(kept: Option<Tag>, selected: Option<Tag>)
  {
    selected.None? || (kept.Some? && SequenceEqual(selected.value.binaryData, kept.value.binaryData))
  }

  /**
   * A header action produces nothing at all, neither actions nor comments,
   * exactly when neither group is in conflict and each kind repeats the
   * payload kept for it.
   */
  lemma SilentIffHeadersUnchanged(items: map<SessionKey, SessionItem>, allTags: seq<Tag>, audio: Option<Tag>, video: Option<Tag>)
    ensures var s := Step(items, HeaderAction(allTags, audio, video));
      var selectedVideo := SelectHeader(TagsOfKind(allTags, Video));
      var selectedAudio := SelectHeader(TagsOfKind(allTags, Audio));
      (s.outputs == [] && s.comments == []) <==>
        (&& !selectedVideo.conflict && !selectedAudio.conflict
         && SameAsKept(LastHeader(items, VideoHeaderKey), selectedVideo.header)
         && SameAsKept(LastHeader(items, AudioHeaderKey), selectedAudio.header))
  {
  }

  /**
   * A conflict inside the batch always splits, adds the "multiple headers"
   * comment and never the "header changed" one, and ends with the log of
   * the original, unfiltered tags.
   */
  lemma ConflictAlwaysSplits(items: map<SessionKey, SessionItem>, allTags: seq<Tag>, audio: Option<Tag>, video: Option<Tag>)
    requires SelectHeader(TagsOfKind(allTags, Video)).conflict || SelectHeader(TagsOfKind(allTags, Audio)).conflict
    ensures var s := Step(items, HeaderAction(allTags, audio, video));
      var r := Resolve(items, allTags);
      && r.split
      && s.comments == [MultipleHeaderComment]
      && HeaderAction([], r.audio, r.video) in s.outputs
      && s.outputs[|s.outputs| - 1] == LogAlternativeHeaderAction(allTags)
  {
  }

  // ---------------------------------------------------------------------
  // Repetition
  // ---------------------------------------------------------------------

  /**
   * Receiving the same conflict-free header tags again, all with payloads,
   * is silent and leaves the store as it is.
   */
  lemma RepeatedHeaderIsSilent(items: map<SessionKey, SessionItem>, allTags: seq<Tag>, audio: Option<Tag>, video: Option<Tag>)
    requires forall t :: t in allTags ==> t.binaryData.Some?
    requires !SelectHeader(TagsOfKind(allTags, Video)).conflict && !SelectHeader(TagsOfKind(allTags, Audio)).conflict
    ensures var first := Step(items, HeaderAction(allTags, audio, video));
      Step(first.items, HeaderAction(allTags, audio, video)) == StepResult(first.items, [], [])
  {
    var first := Step(items, HeaderAction(allTags, audio, video));
    var r := Resolve(items, allTags);
    var videoGroup, audioGroup := TagsOfKind(allTags, Video), TagsOfKind(allTags, Audio);
    StepStoresResolvedHeaders(items, allTags, audio, video);
    ResolvedHeaders(items, allTags);
    ResolvedHeaders(first.items, allTags);
    TagsOfKindMembers(allTags, Video);
    TagsOfKindMembers(allTags, Audio);
    if |videoGroup| > 0 {
      assert videoGroup[0] in videoGroup;
    }
    if |audioGroup| > 0 {
      assert audioGroup[0] in audioGroup;
    }
    assert SameAsKept(LastHeader(first.items, VideoHeaderKey), SelectHeader(videoGroup).header);
    assert SameAsKept(LastHeader(first.items, AudioHeaderKey), SelectHeader(audioGroup).header);
    SilentIffHeadersUnchanged(first.items, allTags, audio, video);
    var r2 := Resolve(first.items, allTags);
    assert r2.video == r.video && r2.audio == r.audio;
    StoreIsIdempotent(items, r);
  }

  /** Writing the same canonical headers twice leaves the store as after the first write. */
  lemma StoreIsIdempotent(items: map<SessionKey, SessionItem>, r: Resolution)
    ensures Store(Store(items, r), r) == Store(items, r)
  {
  }

  /** The header tags a header announcement carries, video first. */
  function AnnouncedTags(r: Resolution): (tags: seq<Tag>)
    ensures forall t :: t in tags <==> Some(t) == r.video || Some(t) == r.audio
  {
    (if r.video.Some? then [r.video.value] else []) + (if r.audio.Some? then [r.audio.value] else [])
  }

  /**
   * Receiving again, as fresh header tags, the canonical headers the rule
   * just resolved causes no further split and no comment, provided they
   * carry payloads.
   */
  lemma ReobservedCanonicalHeadersDoNotSplit(items: map<SessionKey, SessionItem>, allTags: seq<Tag>, audio: Option<Tag>, video: Option<Tag>)
    requires SlotsHoldTheirKind(items)
    requires var r := Resolve(items, allTags);
      (r.video.Some? ==> r.video.value.binaryData.Some?) && (r.audio.Some? ==> r.audio.value.binaryData.Some?)
    ensures var r := Resolve(items, allTags);
      var first := Step(items, HeaderAction(allTags, audio, video));
      var again := Step(first.items, HeaderAction(AnnouncedTags(r), r.audio, r.video));
      again.outputs == [] && again.comments == []
  {
    var r := Resolve(items, allTags);
    var first := Step(items, HeaderAction(allTags, audio, video));
    var replay := AnnouncedTags(r);
    ResolvedHeadersHaveTheirKind(items, allTags);
    StepStoresResolvedHeaders(items, allTags, audio, video);
    var videoGroup, audioGroup := TagsOfKind(replay, Video), TagsOfKind(replay, Audio);
    assert videoGroup == (if r.video.Some? then [r.video.value] else []);
    assert audioGroup == (if r.audio.Some? then [r.audio.value] else []);
    SilentIffHeadersUnchanged(first.items, replay, r.audio, r.video);
  }

  // ---------------------------------------------------------------------
  // Scenarios
  // ---------------------------------------------------------------------

  /** Three video tags whose second and third differ from the first: the third wins and a conflict is logged. */
  lemma ThreeConflictingTags(items: map<SessionKey, SessionItem>, t1: Tag, t2: Tag, t3: Tag)
    requires t1.kind == Video && t2.kind == Video && t3.kind == Video
    requires !SequenceEqual(t1.binaryData, t2.binaryData) && !SequenceEqual(t1.binaryData, t3.binaryData)
    ensures SelectHeader([t1, t2, t3]) == Selection(Some(t3), true)
    ensures var s := Step(items, HeaderAction([t1, t2, t3], None, None));
      && Resolve(items, [t1, t2, t3]).video == Some(t3)
      && s.comments == [MultipleHeaderComment]
      && s.outputs[|s.outputs| - 1] == LogAlternativeHeaderAction([t1, t2, t3])
  {
    var tags := [t1, t2, t3];
    TagsOfKindUniform(tags, Video);
    TagsOfKindUniform(tags, Audio);
    assert TagsOfKind(tags, Video) == tags;
    assert TagsOfKind(tags, Audio) == [];
    assert !AllMatchFirst(tags) by {
      assert !SequenceEqual(tags[0].binaryData, tags[1].binaryData);
    }
    assert SelectHeader(tags) == Selection(Some(t3), true);
    ConflictAlwaysSplits(items, tags, None, None);
    ResolvedHeaders(items, tags);
  }

  /**
   * Two batches in a row, each with one video tag: with different payloads
   * the second starts a new file and announces the new video header (the
   * audio header kept before is carried along); with the same payload it
   * is silent.
   */
  lemma ConsecutiveVideoHeaders(items: map<SessionKey, SessionItem>, v1: Tag, v2: Tag)
    requires v1.kind == Video && v2.kind == Video
    ensures var first := Step(items, HeaderAction([v1], None, None));
      var second := Step(first.items, HeaderAction([v2], None, None));
      && (!SequenceEqual(v2.binaryData, v1.binaryData) ==>
            second.outputs == [NewFileAction, HeaderAction([], LastHeader(items, AudioHeaderKey), Some(v2))]
            && second.comments == [SplitFileComment])
      && (SequenceEqual(v2.binaryData, v1.binaryData) ==>
            second.outputs == [] && second.comments == [])
  {
    assert TagsOfKind([v1], Video) == [v1] && TagsOfKind([v1], Audio) == [];
    assert TagsOfKind([v2], Video) == [v2] && TagsOfKind([v2], Audio) == [];
    StepStoresResolvedHeaders(items, [v1], None, None);
  }

  /**
   * A video header is kept; a batch brings a new, different audio header and
   * no video: the video header is carried forward, the audio header is the
   * new one, and the change of audio alone starts a new file.
   */
  lemma CarryForward(items: map<SessionKey, SessionItem>, kept: Tag, b: Tag)
    requires LastHeader(items, VideoHeaderKey) == Some(kept)
    requires b.kind == Audio
    requires LastHeader(items, AudioHeaderKey).None?
      || !SequenceEqual(b.binaryData, LastHeader(items, AudioHeaderKey).value.binaryData)
    ensures var r := Resolve(items, [b]);
      r.video == Some(kept) && r.audio == Some(b) && r.split
    ensures Step(items, HeaderAction([b], None, None)).outputs
      == [NewFileAction, HeaderAction([], Some(b), Some(kept))]
  {
    assert TagsOfKind([b], Video) == [] && TagsOfKind([b], Audio) == [b];
  }

  /**
   * A whole session: the first batch brings video header V1 and announces it
   * without a new file; the second brings V1 again with audio header A1,
   * which starts a new file announcing both; a third batch of data only
   * passes through untouched.
   */
  lemma SessionScenario(v1: Tag, a1: Tag, data: seq<PipelineAction>)
    requires v1.kind == Video && a1.kind == Audio && v1.binaryData.Some?
    requires forall i :: 0 <= i < |data| ==> !data[i].HeaderAction?
    ensures var batch1 := RunBatch(map[], [HeaderAction([v1], None, None)]);
      var batch2 := RunBatch(batch1.items, [HeaderAction([v1, a1], None, None)]);
      var batch3 := RunBatch(batch2.items, data);
      && batch1.outputs == [HeaderAction([], None, Some(v1))] && batch1.comments == []
      && batch2.outputs == [NewFileAction, HeaderAction([], Some(a1), Some(v1))]
      && batch2.comments == [SplitFileComment]
      && batch3.outputs == data && batch3.comments == []
  {
    var first, second := HeaderAction([v1], None, None), HeaderAction([v1, a1], None, None);
    SingleActionBatch(map[], first);
    OpeningVideoHeader(v1);
    var items1 := Step(map[], first).items;
    SingleActionBatch(items1, second);
    AudioJoinsVideo(items1, v1, a1);
    BatchWithoutHeadersIsUnchanged(Step(items1, second).items, data);
  }

  /**
   * Two header actions in one batch on an empty store: the second sees the
   * video header the first one kept, so a different payload starts a new
   * file within the same batch.
   */
  lemma HeaderActionsOfOneBatch(v1: Tag, v2: Tag)
    requires v1.kind == Video && v2.kind == Video && !SequenceEqual(v2.binaryData, v1.binaryData)
    ensures var b := RunBatch(map[], [HeaderAction([v1], None, None), HeaderAction([v2], None, None)]);
      && b.outputs == [HeaderAction([], None, Some(v1)), NewFileAction, HeaderAction([], None, Some(v2))]
      && b.comments == [SplitFileComment]
  {
    var first, second := HeaderAction([v1], None, None), HeaderAction([v2], None, None);
    assert [first, second][..1] == [first];
    SingleActionBatch(map[], first);
    OpeningVideoHeader(v1);
    ConsecutiveVideoHeaders(map[], v1, v2);
  }

  /** A batch of one action is that action's step. */
  lemma SingleActionBatch(items: map<SessionKey, SessionItem>, action: PipelineAction)
    ensures var s := Step(items, action);
      RunBatch(items, [action]) == BatchResult(s.items, s.outputs, s.comments)
  {
    assert [action][..0] == [];
  }

  /** The first video header of a session is announced alone and kept. */
  lemma OpeningVideoHeader(v1: Tag)
    requires v1.kind == Video
    ensures var s := Step(map[], HeaderAction([v1], None, None));
      && s.outputs == [HeaderAction([], None, Some(v1))] && s.comments == []
      && LastHeader(s.items, VideoHeaderKey) == Some(v1) && LastHeader(s.items, AudioHeaderKey) == None
  {
    assert TagsOfKind([v1], Video) == [v1] && TagsOfKind([v1], Audio) == [];
    var r := Resolve(map[], [v1]);
    assert r == Resolution(Some(v1), None, false, true, false);
    StepStoresResolvedHeaders(map[], [v1], None, None);
    assert Emitted(r, [v1]) == [HeaderAction([], None, Some(v1))];
    assert Added(r) == [];
  }

  /** The kept video header comes again with a first audio header: a new file announcing both. */
  lemma AudioJoinsVideo(items: map<SessionKey, SessionItem>, v1: Tag, a1: Tag)
    requires v1.kind == Video && a1.kind == Audio && v1.binaryData.Some?
    requires LastHeader(items, VideoHeaderKey) == Some(v1) && LastHeader(items, AudioHeaderKey) == None
    ensures var s := Step(items, HeaderAction([v1, a1], None, None));
      && s.outputs == [NewFileAction, HeaderAction([], Some(a1), Some(v1))]
      && s.comments == [SplitFileComment]
  {
    assert TagsOfKind([v1, a1], Video) == [v1] && TagsOfKind([v1, a1], Audio) == [a1];
    var r := Resolve(items, [v1, a1]);
    assert r == Resolution(Some(v1), Some(a1), false, true, true);
    assert Emitted(r, [v1, a1]) == [NewFileAction, HeaderAction([], Some(a1), Some(v1))];
    assert Added(r) == [SplitFileComment];
  }
}
