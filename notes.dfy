/**
 * The `Note` record of `notes/models.py` and the `NoteSerializer` of
 * `notes/serializers.py`: tag encoding and decoding, the two field
 * validators, and `create`/`update` over a table of notes.
 */
module Notes {
  import opened Common
  import opened Text

  /** A `Note` row; `tags` is the stored comma-joined text. */
  datatype Note = Note(
    user: UserId,
    clientId: Option<string>,
    title: string,
    subject: string,
    category: string,
    tags: string,
    content: string)

  /** The writable serializer fields. */
  datatype Field = ClientIdField | TitleField | SubjectField | CategoryField | TagsField | ContentField

  /** A value in `validated_data`: a string, None, or (for tags) a list of strings. */
  datatype Value = Str(s: string) | Null | StrList(items: seq<string>)

  // ---------------------------------------------------------------- tags

  /** The separator `create`/`update` join tags with. */
  const TagSeparator: string := ", "

  /** A tag the serializer can hand back: non-empty and already stripped. */
  predicate IsCleanTag(t: string)
  {
    t != "" && IsStripped(t)
  }

  predicate AllClean(tags: seq<string>)
  {
    forall i :: 0 <= i < |tags| ==> IsCleanTag(tags[i])
  }

  /** No tag contains the character `c`. */
  predicate NoneContains(tags: seq<string>, c: char)
  {
    forall i :: 0 <= i < |tags| ==> c !in tags[i]
  }

  /** Each piece stripped of surrounding whitespace, blank pieces dropped, order kept. */
  function StripNonEmpty(parts: seq<string>): (r: seq<string>)
    ensures |r| <= |parts|
    ensures AllClean(r)
  {
    if parts == [] then []
    else
      var t := Strip(parts[0]);
      if t == "" then StripNonEmpty(parts[1..]) else [t] + StripNonEmpty(parts[1..])
  }


  /** `validate_tags(value)`: every entry stripped, blank entries dropped. */
  function ValidateTags(value: seq<string>): (r: seq<string>)
    ensures AllClean(r)
  {
    StripNonEmpty(value)
  }

  /** The stored form of a tag list: `", ".join(tags)`. */
  function EncodeTags(tags: seq<string>): (r: string)
    ensures tags == [] ==> r == ""
    ensures |tags| == 1 ==> r == tags[0]
  {
    Join(tags, TagSeparator)
  }

  /** The tag list `to_representation` reports for stored text. */
  function DecodeTags(stored: string): (r: seq<string>)
    ensures AllClean(r) && NoneContains(r, ',')
  {
    var raw := Strip(stored);
    if raw == "" then []
    else
      var parts := Split(raw, ',');
      StripNonEmptyAvoids(parts, ',');
      StripNonEmpty(parts)
  }

  lemma {:induction false} StripNonEmptyAvoids(parts: seq<string>, c: char)
    requires NoneContains(parts, c)
    ensures NoneContains(StripNonEmpty(parts), c)
  {
    if parts != [] {
      StripNonEmptyAvoids(parts[1..], c);
      StripAvoids(parts[0], c);
    }
  }

  /** Clean tags are left alone by stripping. */
  lemma {:induction false} StripNonEmptyOfClean(tags: seq<string>)
    requires AllClean(tags)
    ensures StripNonEmpty(tags) == tags
  {
    if tags != [] {
      StripOfStripped(tags[0]);
      StripNonEmptyOfClean(tags[1..]);
    }
  }

  /** Stripping is idempotent on tag lists, so validating twice is validating once. */
  lemma ValidateTagsIdempotent(value: seq<string>)
    ensures ValidateTags(ValidateTags(value)) == ValidateTags(value)
  {
    StripNonEmptyOfClean(ValidateTags(value));
  }

  /**
   * Splitting `pre + join(tags)` on commas and cleaning the pieces gives the tags back,
   * when `pre` is whitespace and the tags are clean and comma-free.
   */
  lemma {:induction false} SplitJoinedTags(pre: string, tags: seq<string>)
    requires AllSpace(pre) && ',' !in pre
    requires |tags| >= 1
    requires AllClean(tags) && NoneContains(tags, ',')
    ensures StripNonEmpty(Split(pre + Join(tags, TagSeparator), ',')) == tags
    decreases |tags|
  {
    StripLeadingSpaces(pre, tags[0]);
    if |tags| == 1 {
      SplitWithoutSep(pre + tags[0], ',');
      assert Split(pre + tags[0], ',')[1..] == [];
    } else {
      var rest := tags[1..];
      assert pre + Join(tags, TagSeparator) == (pre + tags[0]) + [','] + (" " + Join(rest, TagSeparator));
      SplitAtFirstSep(pre + tags[0], ',', " " + Join(rest, TagSeparator));
      SplitJoinedTags(" ", rest);
      assert tags == [tags[0]] + rest;
    }
  }

  /** The stored form of clean tags has no whitespace at either end. */
  lemma EncodedTagsAreStripped(tags: seq<string>)
    requires |tags| >= 1
    requires AllClean(tags)
    ensures EncodeTags(tags) != [] && IsStripped(EncodeTags(tags))
  {
    var enc := EncodeTags(tags);
    JoinEnds(tags, TagSeparator);
    var first, last := tags[0], tags[|tags| - 1];
    assert enc[0] == enc[..|first|][0] == first[0];
    assert enc[|enc| - 1] == enc[|enc| - |last|..][|last| - 1] == last[|last| - 1];
  }

  /** Decoding the stored form of clean, comma-free tags gives back the same list. */
  lemma TagsRoundTrip(tags: seq<string>)
    requires AllClean(tags) && NoneContains(tags, ',')
    ensures DecodeTags(EncodeTags(tags)) == tags
  {
    if tags != [] {
      var enc := EncodeTags(tags);
      EncodedTagsAreStripped(tags);
      StripOfStripped(enc);
      assert "" + enc == enc;
      SplitJoinedTags("", tags);
      assert DecodeTags(enc) == StripNonEmpty(Split(enc, ','));
    }
  }

  /** Validated tags survive storage when no tag contains a comma. */
  lemma ValidatedTagsRoundTrip(value: seq<string>)
    requires NoneContains(value, ',')
    ensures DecodeTags(EncodeTags(ValidateTags(value))) == ValidateTags(value)
  {
    StripNonEmptyAvoids(value, ',');
    TagsRoundTrip(ValidateTags(value));
  }

  /** What `to_representation` reports is stable: storing and reading it again gives the same list. */
  lemma DecodeIsStable(stored: string)
    ensures DecodeTags(EncodeTags(DecodeTags(stored))) == DecodeTags(stored)
  {
    TagsRoundTrip(DecodeTags(stored));
  }

  /** A tag containing a comma comes back as two tags. */
  lemma CommaTagSplits()
    ensures DecodeTags(EncodeTags(["a,b"])) == ["a", "b"]
  {
    var s := "a,b";
    assert EncodeTags(["a,b"]) == s;
    StripOfStripped(s);
    assert s == "a" + [','] + "b";
    SplitAtFirstSep("a", ',', "b");
    SplitWithoutSep("b", ',');
    StripOfStripped("a");
    StripOfStripped("b");
    assert Split(s, ',') == ["a", "b"];
    assert ["a", "b"][1..] == ["b"];
  }

  // ----------------------------------------------------------- client_id

  /** `validate_client_id(value)`: None and blank strings become None, others are stripped. */
  function ValidateClientId(value: Option<string>): (r: Option<string>)
    ensures r.None? <==> value.None? || Strip(value.value) == ""
    ensures r.Some? ==> r.value == Strip(value.value) && IsCleanTag(r.value)
  {
    if value.None? then None
    else
      var v := Strip(value.value);
      if v == "" then None else Some(v)
  }

  /** Validating a validated client id changes nothing. */
  lemma ValidateClientIdIdempotent(value: Option<string>)
    ensures ValidateClientId(ValidateClientId(value)) == ValidateClientId(value)
  {
    if value.Some? {
      StripIdempotent(value.value);
    }
  }

  // --------------------------------------------------------- the table

  /** `validated_data` as the serializer's field validation leaves it. */
  predicate WellTypedData(data: map<Field, Value>)
  {
    && (ClientIdField in data ==> data[ClientIdField].Null? || (data[ClientIdField].Str? && IsCleanTag(data[ClientIdField].s)))
    && (TagsField in data ==> data[TagsField].StrList?)
    && (forall f :: f in data && f != ClientIdField && f != TagsField ==> data[f].Str?)
  }

  /** The attributes `setattr` may be given: tags already joined into a string. */
  predicate StorableData(data: map<Field, Value>)
  {
    && (ClientIdField in data ==> data[ClientIdField].Null? || data[ClientIdField].Str?)
    && (forall f :: f in data && f != ClientIdField ==> data[f].Str?)
  }

  /** One `setattr(note, attr, value)`. */
  function SetAttr(n: Note, f: Field, v: Value): (r: Note)
    requires f == ClientIdField ==> v.Null? || v.Str?
    requires f != ClientIdField ==> v.Str?
  {
    match f
    case ClientIdField => n.(clientId := if v.Null? then None else Some(v.s))
    case TitleField => n.(title := v.s)
    case SubjectField => n.(subject := v.s)
    case CategoryField => n.(category := v.s)
    case TagsField => n.(tags := v.s)
    case ContentField => n.(content := v.s)
  }

  /** `n` with the fields in `keys` taken from `data`, field by field. */
  function Assigned(n: Note, data: map<Field, Value>, keys: set<Field>): (r: Note)
    requires keys <= data.Keys && StorableData(data)
  {
    Note(
      n.user,
      if ClientIdField in keys then (if data[ClientIdField].Null? then None else Some(data[ClientIdField].s)) else n.clientId,
      if TitleField in keys then data[TitleField].s else n.title,
      if SubjectField in keys then data[SubjectField].s else n.subject,
      if CategoryField in keys then data[CategoryField].s else n.category,
      if TagsField in keys then data[TagsField].s else n.tags,
      if ContentField in keys then data[ContentField].s else n.content)
  }

  /** The note after every attribute of `data` is set on it: supplied fields overwritten, others kept. */
  function Overwritten(n: Note, data: map<Field, Value>): (r: Note)
    requires StorableData(data)
  {
    Assigned(n, data, data.Keys)
  }

  /** Sets each supplied attribute on the note in turn, one field per loop step. */
  method AssignAttributes(note: Note, data: map<Field, Value>) returns (r: Note)
    requires StorableData(data)
    ensures r == Overwritten(note, data)
    ensures r.user == note.user
    ensures ClientIdField !in data ==> r.clientId == note.clientId
  {
    r := note;
    var todo := data.Keys;
    while todo != {}
      invariant todo <= data.Keys
      invariant r == Assigned(note, data, data.Keys - todo)
      decreases todo
    {
      var f :| f in todo;
      r := SetAttr(r, f, data[f]);
      todo := todo - {f};
    }
  }

  /** A note created from nothing but its owner; Django fills text fields with "". */
  function BlankNote(user: UserId): Note
  {
    Note(user, None, "", "", "", "", "")
  }

  /** At most one note per (user, client_id), ignoring notes without a client id. */
  ghost predicate UniqueClientIds(notes: map<nat, Note>)
  {
    forall a, b :: a in notes && b in notes && a != b && notes[a].clientId.Some? ==>
      notes[a].user != notes[b].user || notes[a].clientId != notes[b].clientId
  }

  /** The id of a note of `user` with client id `c`, if any. */
  predicate HasClientNote(notes: map<nat, Note>, user: UserId, c: string)
  {
    exists id :: id in notes && notes[id].user == user && notes[id].clientId == Some(c)
  }

  /** Replacing one note by one that keeps its owner and client id keeps uniqueness. */
  lemma UniqueAfterSameKey(notes: map<nat, Note>, id: nat, n: Note)
    requires UniqueClientIds(notes) && id in notes
    requires n.user == notes[id].user && n.clientId == notes[id].clientId
    ensures UniqueClientIds(notes[id := n])
  {
  }

  /** The saved outcome of `update`; `IntegrityError` is the database refusing a duplicate (user, client_id). */
  datatype SaveResult = Saved(note: Note) | IntegrityError

  /** The note table the serializer writes to. */
  class NoteTable {
    var notes: map<nat, Note>
    var nextId: nat

    ghost predicate Valid()
      reads this
    {
      && 1 <= nextId
      && (forall id :: id in notes ==> 1 <= id < nextId)
      && UniqueClientIds(notes)
    }

    constructor ()
      ensures Valid() && notes == map[] && nextId == 1
    {
      notes := map[];
      nextId := 1;
    }

    /** Insert a fresh row; ids start at 1. */
    method Insert(n: Note) returns (id: nat)
      requires Valid()
      requires n.clientId.Some? ==> !HasClientNote(notes, n.user, n.clientId.value)
      modifies this
      ensures Valid()
      ensures id == old(nextId) && id !in old(notes) && notes == old(notes)[id := n]
    {
      id := nextId;
      notes := notes[id := n];
      nextId := nextId + 1;
    }

    /**
     * `NoteSerializer.create(validated_data)` with `user` from `save(user=...)`:
     * tags joined with ", "; a note of the same user with the same client id is
     * updated in place, otherwise a new note is added.
     */
    method Create(user: UserId, data: map<Field, Value>) returns (id: nat)
      requires Valid() && WellTypedData(data)
      modifies this
      ensures Valid()
      ensures var tags := if TagsField in data then data[TagsField].items else [];
        var stored := (data - {TagsField})[TagsField := Str(EncodeTags(tags))];
        var client := if ClientIdField in data && data[ClientIdField].Str? then Some(data[ClientIdField].s) else None;
        if client.Some? && HasClientNote(old(notes), user, client.value) then
          && id in old(notes) && old(notes)[id].user == user && old(notes)[id].clientId == client
          && notes == old(notes)[id := Overwritten(old(notes)[id], stored)]
          && nextId == old(nextId)
        else
          && id == old(nextId) && id !in old(notes)
          && notes == old(notes)[id := Overwritten(BlankNote(user), stored)]
    {
      var tags := if TagsField in data then data[TagsField].items else [];
      var stored := (data - {TagsField})[TagsField := Str(EncodeTags(tags))];
      var client := if ClientIdField in data && data[ClientIdField].Str? then Some(data[ClientIdField].s) else None;
      if client.Some? {
        if existing :| existing in notes && notes[existing].user == user && notes[existing].clientId == client {
          var n := AssignAttributes(notes[existing], stored);
          UniqueAfterSameKey(notes, existing, n);
          notes := notes[existing := n];
          return existing;
        }
      }
      var n := AssignAttributes(BlankNote(user), stored);
      id := Insert(n);
    }

    /**
     * `NoteSerializer.update(instance, validated_data)`: supplied attributes are
     * overwritten, tags (joined) only when supplied; a save that would give the
     * owner two notes with one client id is refused and changes nothing.
     */
    method Update(id: nat, data: map<Field, Value>) returns (r: SaveResult)
      requires Valid() && WellTypedData(data) && id in notes
      modifies this
      ensures Valid() && nextId == old(nextId)
      ensures var rest := data - {TagsField};
        var set1 := Overwritten(old(notes)[id], rest);
        var n := if TagsField in data then set1.(tags := EncodeTags(data[TagsField].items)) else set1;
        var clash := n.clientId.Some? &&
          exists other :: other in old(notes) && other != id && old(notes)[other].user == n.user
                          && old(notes)[other].clientId == n.clientId;
        if clash then r == IntegrityError && notes == old(notes)
        else r == Saved(n) && notes == old(notes)[id := n]
    {
      var rest := data - {TagsField};
      var n := AssignAttributes(notes[id], rest);
      if TagsField in data {
        n := n.(tags := EncodeTags(data[TagsField].items));
      }
      if n.clientId.Some? {
        if other :| other in notes && other != id && notes[other].user == n.user && notes[other].clientId == n.clientId {
          return IntegrityError;
        }
      }
      notes := notes[id := n];
      r := Saved(n);
    }
  }
}
