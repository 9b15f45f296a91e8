/**
 * The vocabulary that flows through the FLV processing pipeline: decoded
 * container tags, pipeline actions, the diagnostic comments a rule may add,
 * and the values a rule may keep in the session item store.
 */
module FlvModel {

  /** A value that may be missing (a C# reference that may be null). */
  datatype Option<+T> = None | Some(value: T)

  /** The FLV tag types: audio (8), video (9) and script data (18). */
  datatype TagType = Audio | Video | Script

  /**
   * A decoded tag. Only the fields the header rule looks at are kept: the
   * type, the binary payload (which may be absent) and the timestamp.
   * Tags are values here: the source's `Clone()` is a value copy.
   */
  datatype Tag = Tag(kind: TagType, binaryData: Option<seq<bv8>>, timestamp: int)

  /**
   * A pipeline action. `HeaderAction` carries newly received header tags
   * and the audio and video headers resolved for it; `NewFileAction` asks
   * the writer to start a new file; `LogAlternativeHeaderAction` asks for
   * the raw tags to be saved apart; data actions and the actions of other
   * rules are opaque to this model.
   */
  datatype PipelineAction =
    | HeaderAction(allTags: seq<Tag>, audioHeader: Option<Tag>, videoHeader: Option<Tag>)
    | NewFileAction
    | LogAlternativeHeaderAction(allTags: seq<Tag>)
    | DataAction(tags: seq<Tag>)
    | OtherAction(id: nat)

  /**
   * The two comments of the header rule, both of category DecodingHeader:
   * "received several headers in a row, starting a new file" and
   * "starting a new file because of a header problem".
   */
  datatype Comment = MultipleHeaderComment | SplitFileComment

  /**
   * A key of the session item store. The header rule's two keys are the
   * strings "HandleNewHeaderRule_VideoHeader" and
   * "HandleNewHeaderRule_AudioHeader" (see KeyName); the keys of other
   * rules are kept by name.
   */
  datatype SessionKey = VideoHeaderKey | AudioHeaderKey | RuleKey(name: string)

  /** The string under which the source stores each key. */
  function KeyName(key: SessionKey): string
  {
    match key
    case VideoHeaderKey => "HandleNewHeaderRule_VideoHeader"
    case AudioHeaderKey => "HandleNewHeaderRule_AudioHeader"
    case RuleKey(name) => name
  }

  /**
   * A value in the session item store. The store is shared by all rules,
   * so a key may hold a value of another type; reading it `as Tag` then
   * gives nothing.
   */
  datatype SessionItem = HeaderTag(tag: Tag) | ForeignItem(owner: string)

  /**
   * `a?.SequenceEqual(b) ?? false`: an absent left-hand payload is never
   * equal. What happens with an absent right-hand payload is not visible in
   * the rule's code; it is assumed to compare as "not equal".
   */
  predicate SequenceEqual(a: Option<seq<bv8>>, b: Option<seq<bv8>>)
  {
    a.Some? && b.Some? && a.value == b.value
  }

  /**
   * The group of `tags` with type `kind`, in arrival order: what
   * `GroupBy(x => x.Type)` followed by `FirstOrDefault(g => g.Key == kind)`
   * yields, with the empty sequence standing for the missing (null) group.
   */
  function TagsOfKind(tags: seq<Tag>, kind: TagType): (group: seq<Tag>)
    ensures |group| <= |tags|
    ensures forall i :: 0 <= i < |group| ==> group[i].kind == kind
  {
    if tags == [] then []
    else if tags[0].kind == kind then [tags[0]] + TagsOfKind(tags[1..], kind)
    else TagsOfKind(tags[1..], kind)
  }

  /** The group of a kind holds exactly the tags of that kind. */
  lemma {:induction false} TagsOfKindMembers(tags: seq<Tag>, kind: TagType)
    ensures forall t :: t in TagsOfKind(tags, kind) <==> t in tags && t.kind == kind
  {
    if tags != [] {
      TagsOfKindMembers(tags[1..], kind);
      assert tags == [tags[0]] + tags[1..];
    }
  }

  /** The group of a kind is the whole sequence when every tag has the kind, and empty when none has. */
  lemma {:induction false} TagsOfKindUniform(tags: seq<Tag>, kind: TagType)
    ensures (forall i :: 0 <= i < |tags| ==> tags[i].kind == kind) ==> TagsOfKind(tags, kind) == tags
    ensures (forall i :: 0 <= i < |tags| ==> tags[i].kind != kind) ==> TagsOfKind(tags, kind) == []
  {
    if tags != [] {
      TagsOfKindUniform(tags[1..], kind);
      assert forall i :: 1 <= i < |tags| ==> tags[1..][i - 1] == tags[i];
      assert tags == [tags[0]] + tags[1..];
    }
  }

  /**
   * Grouping keeps arrival order and multiplicity: the group of a
   * concatenation is the group of the first part followed by the group of
   * the second.
   */
  lemma {:induction false} TagsOfKindAppend(a: seq<Tag>, b: seq<Tag>, kind: TagType)
    ensures TagsOfKind(a + b, kind) == TagsOfKind(a, kind) + TagsOfKind(b, kind)
  {
    if a == [] {
      assert a + b == b;
    } else {
      assert (a + b)[0] == a[0] && (a + b)[1..] == a[1..] + b;
      TagsOfKindAppend(a[1..], b, kind);
      var head := if a[0].kind == kind then [a[0]] else [];
      assert TagsOfKind(a + b, kind) == head + TagsOfKind(a[1..] + b, kind);
      assert TagsOfKind(a, kind) == head + TagsOfKind(a[1..], kind);
    }
  }

  /** The group of a single tag is that tag when it has the kind, and empty otherwise. */
  lemma TagsOfKindSingle(t: Tag, kind: TagType)
    ensures TagsOfKind([t], kind) == if t.kind == kind then [t] else []
  {
    assert [t][1..] == [];
  }
}
