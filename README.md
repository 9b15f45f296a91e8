# Header continuity rule of the FLV processing pipeline

This project models `HandleNewHeaderRule`, a rule in BililiveRecorder's FLV
processing pipeline. It deduplicates and checks the audio and video header
tags that the decoder delivers. It also decides when the recording must move
to a new file.

For every header action in a batch, the rule works in four stages:

1. It selects one canonical tag per kind. A kind's group of header tags yields
   nothing when it is empty and its first tag when every later tag repeats the
   first payload. Otherwise it yields its last tag, flagged as a conflict.
2. It compares each canonical tag with the header kept for that kind in the
   session store from earlier header actions, and decides whether to split.
3. It writes the resolved headers back to the store.
4. It replaces the header action with, in this order and each only when due:
   a new-file marker, a header announcement, and a log of the raw tags. It adds
   up to one diagnostic comment for each of the two reasons.

Every other action passes through unchanged.

The model has two layers:

- Reference functions over values:
  - `SelectHeader`, `Decide` and `Resolve` give the decisions for one header action.
  - `Step` gives the result of the rule on one action.
  - `RunBatch` gives the result of the rule on a whole batch.
- Imperative methods that follow the source step by step over a processing
  context whose fields they update: `DecideSplit`, `RunOnHeader`,
  `RunPerAction` and `Run`. Each method is proved equal to its reference
  function. Lemmas then state the rule's guarantees over those functions.

Modules:

- `FlvModel` (`flv_model.dfy`): tags, pipeline actions, comments, session keys
  and items, payload comparison, and grouping by kind.
- `FlvContext` (`flv_context.dfy`): the processing context class with its
  action batch, session item store and comment log.
- `HandleNewHeaderRule` (`handle_new_header_rule.dfy`): the rule itself.
- `HeaderRuleProperties` (`header_rule_properties.dfy`): the properties and
  scenarios.

Payload comparison follows `a?.SequenceEqual(b) ?? false`: an absent payload
on the left compares as different. What an absent payload on the right does is
not visible in the rule's code; the model assumes it compares as different
too, with no error path. Either way a split is the conservative outcome.

The "not first time" test (line 67) covers both kinds together and reads the
store as it was before this header action, after any earlier action of the
same batch. So a second header action in a batch sees what the first one
kept (`HeaderActionsOfOneBatch`). A first audio header that arrives after a
kept video header does start a new file (`AudioJoinsVideo`). The promise that
the first header opens the first file without a new-file marker holds for an
empty store (`FirstHeaderOfSession`).

## Model

| member | source | states |
|---|---|---|
| FlvModel.TagsOfKind | BililiveRecorder.Flv/Pipeline/Rules/HandleNewHeaderRule.cs:41-44 | the group of a kind is no longer than the batch's tags and holds only tags of that kind |
| FlvModel.TagsOfKindMembers | BililiveRecorder.Flv/Pipeline/Rules/HandleNewHeaderRule.cs:41-44 | a tag is in the group of a kind exactly when it is among the batch's tags and has that kind |
| FlvModel.TagsOfKindUniform | BililiveRecorder.Flv/Pipeline/Rules/HandleNewHeaderRule.cs:41-44 | the group is every tag when all have the kind, and missing (empty) when none has |
| FlvModel.TagsOfKindAppend | BililiveRecorder.Flv/Pipeline/Rules/HandleNewHeaderRule.cs:41-44 | grouping keeps arrival order and multiplicity: the group of a concatenation is the group of the first part followed by the group of the second |
| FlvModel.TagsOfKindSingle | BililiveRecorder.Flv/Pipeline/Rules/HandleNewHeaderRule.cs:41-44 | a single tag forms its own group when it has the kind and contributes nothing otherwise |
| FlvModel.KeyName | BililiveRecorder.Flv/Pipeline/Rules/HandleNewHeaderRule.cs:18-19 | no contract; gives the store strings of the rule's two keys |
| FlvModel.SequenceEqual | BililiveRecorder.Flv/Pipeline/Rules/HandleNewHeaderRule.cs:104 | no contract; defines payload equality as both payloads present and identical (used again at line 154) |
| HandleNewHeaderRule.LastHeader | BililiveRecorder.Flv/Pipeline/Rules/HandleNewHeaderRule.cs:35-36 | the kept header of a key is present exactly when the store holds a header tag under that key, and it is that tag |
| HandleNewHeaderRule.AllMatchFirst | BililiveRecorder.Flv/Pipeline/Rules/HandleNewHeaderRule.cs:104 | no contract; defines "every later tag of the group has the first tag's payload" |
| HandleNewHeaderRule.SelectHeader | BililiveRecorder.Flv/Pipeline/Rules/HandleNewHeaderRule.cs:94-120 | a header is selected exactly when the group is non-empty; without conflict it is the first tag and all later payloads equal the first; a conflict requires at least two tags with some later payload different, and then the last tag wins |
| HandleNewHeaderRule.Decide | BililiveRecorder.Flv/Pipeline/Rules/HandleNewHeaderRule.cs:122-166 | a split once set stays set; a received header is kept; a kind has a header afterwards exactly when it had one before or received one |
| HandleNewHeaderRule.DecideCases | BililiveRecorder.Flv/Pipeline/Rules/HandleNewHeaderRule.cs:124-165 | the four cases: nothing kept and nothing received changes nothing; a first header splits; a missing header is carried forward from the last one; a received header splits unless its payload equals the kept one |
| HandleNewHeaderRule.DecideSplit | BililiveRecorder.Flv/Pipeline/Rules/HandleNewHeaderRule.cs:122-166 | the imperative comparison yields exactly the current header and split flag of Decide |
| HandleNewHeaderRule.Resolve | BililiveRecorder.Flv/Pipeline/Rules/HandleNewHeaderRule.cs:35-67 | a conflict in either group forces a split; "not first time" holds exactly when either kind had a kept header before this header action (after any earlier action of the same batch) |
| HandleNewHeaderRule.Store | BililiveRecorder.Flv/Pipeline/Rules/HandleNewHeaderRule.cs:56-59 | after the write, each slot holds the canonical header of its kind when there is one, and otherwise keeps its earlier header |
| HandleNewHeaderRule.Added | BililiveRecorder.Flv/Pipeline/Rules/HandleNewHeaderRule.cs:46-72 | at most one comment is added, and none exactly when there is no conflict and not both "not first time" and split |
| HandleNewHeaderRule.Emitted | BililiveRecorder.Flv/Pipeline/Rules/HandleNewHeaderRule.cs:74-87 | at most three actions replace a header action, and none exactly when there is neither a split nor a conflict |
| HandleNewHeaderRule.Step | BililiveRecorder.Flv/Pipeline/Rules/HandleNewHeaderRule.cs:30-92 | one action is replaced by at most three actions and adds at most one comment |
| HandleNewHeaderRule.RunBatchExtend | BililiveRecorder.Flv/Pipeline/Rules/HandleNewHeaderRule.cs:24-28 | running the rule on one more action of a batch extends the outputs, comments and store by that action's step |
| HandleNewHeaderRule.RunOnHeader | BililiveRecorder.Flv/Pipeline/Rules/HandleNewHeaderRule.cs:32-89 | the header branch returns the emitted actions of the resolution, writes the resolved headers to the store and appends its comments to the log |
| HandleNewHeaderRule.RunPerAction | BililiveRecorder.Flv/Pipeline/Rules/HandleNewHeaderRule.cs:30-92 | the per-action handler returns, stores and logs exactly what Step defines for the action |
| HandleNewHeaderRule.Run | BililiveRecorder.Flv/Pipeline/Rules/HandleNewHeaderRule.cs:24-28 | the batch is rewritten action by action as RunBatch defines, the store and log end as RunBatch says, then the rest of the chain runs on the result |
| FlvContext.FlvProcessingContext.AddComment | BililiveRecorder.Flv/Pipeline/Rules/HandleNewHeaderRule.cs:46-47 | adding a comment appends it to the end of the log |
| HeaderRuleProperties.NonHeaderPassesThrough | BililiveRecorder.Flv/Pipeline/Rules/HandleNewHeaderRule.cs:90-91 | an action other than a header action is returned alone, with store and log untouched |
| HeaderRuleProperties.BatchWithoutHeadersIsUnchanged | BililiveRecorder.Flv/Pipeline/Rules/HandleNewHeaderRule.cs:90-91 | a batch with no header action comes out exactly as it went in, with no comment and the store unchanged |
| HeaderRuleProperties.Foreign | BililiveRecorder.Flv/Pipeline/Rules/HandleNewHeaderRule.cs:90-91 | the foreign actions of a batch are never more than its actions |
| HeaderRuleProperties.ForeignMembers | BililiveRecorder.Flv/Pipeline/Rules/HandleNewHeaderRule.cs:90-91 | the foreign actions are exactly the data actions and the actions of other rules |
| HeaderRuleProperties.ForeignAppend | BililiveRecorder.Flv/Pipeline/Rules/HandleNewHeaderRule.cs:90-91 | taking the foreign actions distributes over concatenation |
| HeaderRuleProperties.NoForeign | BililiveRecorder.Flv/Pipeline/Rules/HandleNewHeaderRule.cs:74-87 | a sequence of the rule's own actions holds no foreign action |
| HeaderRuleProperties.ForeignOfEmitted | BililiveRecorder.Flv/Pipeline/Rules/HandleNewHeaderRule.cs:74-87 | what replaces a header action holds no data action and no action of another rule |
| HeaderRuleProperties.ForeignOfStep | BililiveRecorder.Flv/Pipeline/Rules/HandleNewHeaderRule.cs:30-92 | one action's outputs hold the same foreign actions as the action itself |
| HeaderRuleProperties.ForeignActionsKeepOrder | BililiveRecorder.Flv/Pipeline/Rules/HandleNewHeaderRule.cs:30-32 | data actions and the actions of other rules come out of a batch all present, none added, in their original order |
| HeaderRuleProperties.ResolvedHeaders | BililiveRecorder.Flv/Pipeline/Rules/HandleNewHeaderRule.cs:43-54 | the canonical header of a kind is the one selected from the batch, or else the one kept from before |
| HeaderRuleProperties.TagsOfKindAround | BililiveRecorder.Flv/Pipeline/Rules/HandleNewHeaderRule.cs:41-44 | a tag of the kind sits in its group between the group of the tags before it and the group of the tags after it |
| HeaderRuleProperties.ConflictPicksLastTagOfKind | BililiveRecorder.Flv/Pipeline/Rules/HandleNewHeaderRule.cs:100-111 | on a conflict the selected header, and the canonical header of that kind, is the last tag of the kind in the batch's tag list |
| HeaderRuleProperties.AgreementPicksFirstTagOfKind | BililiveRecorder.Flv/Pipeline/Rules/HandleNewHeaderRule.cs:100-105 | without a conflict the selected header, and the canonical header of that kind, is the first tag of the kind in the batch's tag list |
| HeaderRuleProperties.StepStoresResolvedHeaders | BililiveRecorder.Flv/Pipeline/Rules/HandleNewHeaderRule.cs:56-59 | after a header action each slot holds exactly the canonical header resolved for its kind |
| HeaderRuleProperties.StepKeepsSlot | BililiveRecorder.Flv/Pipeline/Rules/HandleNewHeaderRule.cs:56-59 | one action never empties a slot that holds a header |
| HeaderRuleProperties.SlotsNeverCleared | BililiveRecorder.Flv/Pipeline/Rules/HandleNewHeaderRule.cs:142-148 | once a kind has a header in the session, no batch clears it |
| HeaderRuleProperties.StepKeepsOtherKeys | BililiveRecorder.Flv/Pipeline/Rules/HandleNewHeaderRule.cs:56-59 | one action leaves every key other than the rule's two keys present or absent as before, with the same value |
| HeaderRuleProperties.BatchKeepsOtherKeys | BililiveRecorder.Flv/Pipeline/Rules/HandleNewHeaderRule.cs:56-59 | a whole batch leaves every other rule's key in the shared store as it was |
| HeaderRuleProperties.ResolvedHeadersHaveTheirKind | BililiveRecorder.Flv/Pipeline/Rules/HandleNewHeaderRule.cs:41-59 | with well-kinded slots, each canonical header has its slot's kind and comes from the batch or from the kept header |
| HeaderRuleProperties.BatchKeepsSlotsOfTheirKind | BililiveRecorder.Flv/Pipeline/Rules/HandleNewHeaderRule.cs:56-59 | the video slot keeps holding a video tag and the audio slot an audio tag across any batch |
| HeaderRuleProperties.HeaderActionOutputs | BililiveRecorder.Flv/Pipeline/Rules/HandleNewHeaderRule.cs:74-87 | a header action is replaced by a new-file marker exactly when not first time and split, an announcement of the canonical headers exactly on split, and the raw tags' log exactly on conflict; nothing else, in that order, each at most once |
| HeaderRuleProperties.EmittedShape | BililiveRecorder.Flv/Pipeline/Rules/HandleNewHeaderRule.cs:74-87 | the same shape for any resolution in which a conflict implies a split |
| HeaderRuleProperties.NewFileOnlyAfterFirstHeader | BililiveRecorder.Flv/Pipeline/Rules/HandleNewHeaderRule.cs:67-75 | a new file starts exactly when either kind had a header before and a split was decided; the "header changed" comment comes exactly with a new file without conflict |
| HeaderRuleProperties.FirstHeaderOfSession | BililiveRecorder.Flv/Pipeline/Rules/HandleNewHeaderRule.cs:67-82 | the first header of a session is announced first, with no new-file marker and no "header changed" comment, and its kind is resolved |
| HeaderRuleProperties.SilentIffHeadersUnchanged | BililiveRecorder.Flv/Pipeline/Rules/HandleNewHeaderRule.cs:46-87 | a header action emits nothing and comments nothing exactly when neither group conflicts and each selected header repeats the kept payload |
| HeaderRuleProperties.ConflictAlwaysSplits | BililiveRecorder.Flv/Pipeline/Rules/HandleNewHeaderRule.cs:46-87 | a conflict always splits, adds only the "multiple headers" comment, announces the canonical headers and ends with the log of the original tags |
| HeaderRuleProperties.RepeatedHeaderIsSilent | BililiveRecorder.Flv/Pipeline/Rules/HandleNewHeaderRule.cs:53-59 | the same conflict-free header tags received twice, all with payloads, are silent the second time and leave the store as it was |
| HeaderRuleProperties.StoreIsIdempotent | BililiveRecorder.Flv/Pipeline/Rules/HandleNewHeaderRule.cs:56-59 | writing the same canonical headers twice leaves the store as after the first write |
| HeaderRuleProperties.AnnouncedTags | BililiveRecorder.Flv/Pipeline/Rules/HandleNewHeaderRule.cs:78-82 | the tags of an announcement are exactly its canonical headers |
| HeaderRuleProperties.ReobservedCanonicalHeadersDoNotSplit | BililiveRecorder.Flv/Pipeline/Rules/HandleNewHeaderRule.cs:53-87 | re-receiving the canonical headers just announced, when they carry payloads, emits nothing and comments nothing |
| HeaderRuleProperties.ThreeConflictingTags | BililiveRecorder.Flv/Pipeline/Rules/HandleNewHeaderRule.cs:100-111 | three video tags whose second and third payloads differ from the first select the third with a conflict; the step logs the three tags last and adds only the "multiple headers" comment |
| HeaderRuleProperties.ConsecutiveVideoHeaders | BililiveRecorder.Flv/Pipeline/Rules/HandleNewHeaderRule.cs:53-87 | of two consecutive single video headers, a changed payload gives a new file, then the new header (audio carried along), and a "header changed" comment; the same payload gives nothing |
| HeaderRuleProperties.CarryForward | BililiveRecorder.Flv/Pipeline/Rules/HandleNewHeaderRule.cs:142-163 | with a kept video header and a new, different audio header, video is carried forward, audio is the new one, and the audio change alone starts a new file |
| HeaderRuleProperties.HeaderActionsOfOneBatch | BililiveRecorder.Flv/Pipeline/Rules/HandleNewHeaderRule.cs:24-75 | two video header actions with different payloads in one batch on an empty store: the first is announced, the second sees the header the first kept and starts a new file with a "header changed" comment |
| HeaderRuleProperties.SingleActionBatch | BililiveRecorder.Flv/Pipeline/Rules/HandleNewHeaderRule.cs:24-28 | a batch of one action is that action's step |
| HeaderRuleProperties.OpeningVideoHeader | BililiveRecorder.Flv/Pipeline/Rules/HandleNewHeaderRule.cs:67-82 | a first video header on an empty store is announced alone, without a comment, and kept |
| HeaderRuleProperties.AudioJoinsVideo | BililiveRecorder.Flv/Pipeline/Rules/HandleNewHeaderRule.cs:53-75 | the kept video header arriving again with a first audio header starts a new file announcing both, with a "header changed" comment |
| HeaderRuleProperties.SessionScenario | BililiveRecorder.Flv/Pipeline/Rules/HandleNewHeaderRule.cs:24-92 | a session of video V1, then V1 with audio A1, then data only: announcement; new file with both headers; untouched pass-through |

## Left out

- Only `HandleNewHeaderRule.cs` is modelled. The HTTP API client, its retry policy, its exception types and its DTOs lie outside the rule and are not part of this model.
- `PerActionRun` is not part of this model. It is taken to replace each action, in order, by everything the handler yields, running each enumeration to its end before the next action. The lazy `yield return` evaluation is modelled as eager.
- `Run`: `next` is modelled as a pure function of the rewritten batch. What later rules do to the store or the comment log is not modelled.
- `Clone()`, memory providers and buffer ownership are not modelled: tags are values, so a clone is the tag itself.
- Comments are modelled as the two enum values. Their category (DecodingHeader) and their texts are not modelled.
- Session keys are a datatype: the rule's two keys, and every other rule's keys by name. A key of another rule that happens to equal the rule's own string is not modelled.
- `SequenceEqual`: when the left payload is present and the right one is absent, the outcome is not visible in the rule's code (the payload type and the `SequenceEqual` overload are defined elsewhere). It is assumed to be "not equal", with no error path.
- Tag fields other than type, payload and timestamp are not modelled.
- The incoming header action's own audio and video header fields are ignored by the rule, as in the source. They appear only as parameters.
- `RunBatch` has no contract of its own. It is the reference definition that `Run`, `RunBatchExtend` and the batch lemmas are stated against.
