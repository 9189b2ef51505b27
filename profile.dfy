/** The profile editor (sections/Profile.tsx): at most three short upper-case tags
    and an avatar of at most 2 MiB. The component keeps its own tag list, input and
    error message, and pushes the updated user to its caller after each change. */
module Profile {
  import opened Types
  import opened Text

  const MaxTags := 3
  const MaxTagLength := 10
  const MaxAvatarBytes := 2 * 1024 * 1024

  const TooManyTags := "Max 3 tags allowed."
  const TagTooLong := "Tag too long (Max 10 chars)."
  const AvatarTooLarge := "Image too large (Max 2MB)"

  /** What pressing "add" does with the current list and input. */
  datatype TagResult = Ignored | Refused(message: string) | Added(tags: seq<string>)

  /** A tag as `addTag` stores it: non-empty, at most ten characters, no white
      space at either end and no lower-case ASCII letter. */
  predicate WellFormedTag(t: string) {
    && 0 < |t| <= MaxTagLength
    && !IsSpace(t[0]) && !IsSpace(t[|t| - 1])
    && forall i :: 0 <= i < |t| ==> !('a' <= t[i] <= 'z')
  }

  /** `addTag`'s decision. A blank input is ignored; a full list is refused before
      the length is looked at; the length limit applies to the untrimmed input;
      otherwise the upper-cased, trimmed input goes at the end. */
  function TryAddTag(tags: seq<string>, input: string): (r: TagResult)
    ensures r == Ignored <==> IsBlank(input)
    ensures r.Refused? <==> !IsBlank(input) && (|tags| >= MaxTags || |input| > MaxTagLength)
    ensures r.Refused? ==> r.message == if |tags| >= MaxTags then TooManyTags else TagTooLong
    ensures r.Added? ==>
      && r.tags == tags + [Trim(ToUpper(input))]
      && |r.tags| <= MaxTags
      && WellFormedTag(r.tags[|tags|])
  {
    TrimEmptyIffBlank(input);
    if Trim(input) == [] then Ignored
    else if |tags| >= MaxTags then Refused(TooManyTags)
    else if |input| > MaxTagLength then Refused(TagTooLong)
    else
      StoredTagWellFormed(input);
      Added(tags + [Trim(ToUpper(input))])
  }

  /** The tag `addTag` stores for an accepted input is well formed. */
  lemma StoredTagWellFormed(input: string)
    requires !IsBlank(input) && |input| <= MaxTagLength
    ensures WellFormedTag(Trim(ToUpper(input)))
  {
    TrimOfUpperHasNoOuterSpace(input);
    UpperTagHasNoLowerCase(input);
  }

  lemma UpperTagHasNoLowerCase(input: string)
    ensures forall i :: 0 <= i < |Trim(ToUpper(input))| ==> !('a' <= Trim(ToUpper(input))[i] <= 'z')
  {
    var u := ToUpper(input);
    assert forall i :: 0 <= i < |u| ==> !('a' <= u[i] <= 'z');
    TrimKeeps(u, c => !('a' <= c <= 'z'));
  }

  /** An avatar file as the upload input hands it over. */
  datatype AvatarFile = AvatarFile(size: nat, dataUrl: string)

  datatype AvatarResult = NoFile | TooLarge | Use(dataUrl: string)

  /** `handleImageUpload`'s decision: nothing without a file, an error above 2 MiB,
      otherwise the file's data URL becomes the avatar. */
  function CheckAvatar(file: Option<AvatarFile>): (r: AvatarResult)
    ensures r == NoFile <==> file.None?
    ensures r == TooLarge <==> file.Some? && file.value.size > MaxAvatarBytes
    ensures r.Use? ==> file.Some? && file.value.size <= MaxAvatarBytes && r.dataUrl == file.value.dataUrl
  {
    match file
    case None => NoFile
    case Some(f) => if f.size > MaxAvatarBytes then TooLarge else Use(f.dataUrl)
  }

  /** A tag-list edit: add the given input, or remove a position. */
  datatype TagEdit = Add(input: string) | Remove(idx: int)

  function ApplyTagEdit(tags: seq<string>, e: TagEdit): seq<string> {
    match e
    case Add(input) => (match TryAddTag(tags, input) case Added(t) => t case _ => tags)
    case Remove(idx) => RemoveAt(tags, idx)
  }

  function ApplyTagEdits(tags: seq<string>, edits: seq<TagEdit>): seq<string>
    decreases |edits|
  {
    if edits == [] then tags else ApplyTagEdits(ApplyTagEdit(tags, edits[0]), edits[1..])
  }

  predicate TagsOk(tags: seq<string>) {
    |tags| <= MaxTags && forall i :: 0 <= i < |tags| ==> WellFormedTag(tags[i])
  }

  /** One accepted add keeps the list within bounds. */
  lemma AddKeepsTagsOk(tags: seq<string>, input: string)
    requires TagsOk(tags)
    ensures TagsOk(ApplyTagEdit(tags, Add(input)))
  {
    var r := TryAddTag(tags, input);
    if r.Added? {
      var tag := r.tags[|tags|];
      assert r.tags == tags + [tag];
      TagsOkSnoc(tags, tag);
    }
  }

  lemma TagsOkSnoc(tags: seq<string>, tag: string)
    requires TagsOk(tags) && |tags| < MaxTags && WellFormedTag(tag)
    ensures TagsOk(tags + [tag])
  {
    var next := tags + [tag];
    forall i | 0 <= i < |next| ensures WellFormedTag(next[i]) {
      if i < |tags| {
        assert next[i] == tags[i];
      }
    }
  }

  /** One removal keeps the list within bounds. */
  lemma RemoveKeepsTagsOk(tags: seq<string>, idx: int)
    requires TagsOk(tags)
    ensures TagsOk(ApplyTagEdit(tags, Remove(idx)))
  {
    var next := RemoveAt(tags, idx);
    RemoveAtSplices(tags, idx);
    forall i | 0 <= i < |next| ensures WellFormedTag(next[i]) {
      if 0 <= idx < |tags| && i >= idx {
        assert next[i] == tags[i + 1];
      } else {
        assert next[i] == tags[i];
      }
    }
  }

  /** Adds and removals in any order never take a list of at most three well-formed
      tags past three, nor let a malformed tag in. */
  lemma {:induction false} TagEditsKeepTagsOk(tags: seq<string>, edits: seq<TagEdit>)
    requires TagsOk(tags)
    ensures TagsOk(ApplyTagEdits(tags, edits))
    decreases |edits|
  {
    if edits != [] {
      match edits[0] {
        case Add(input) => AddKeepsTagsOk(tags, input);
        case Remove(idx) => RemoveKeepsTagsOk(tags, idx);
      }
      TagEditsKeepTagsOk(ApplyTagEdit(tags, edits[0]), edits[1..]);
    }
  }

  /** The editor's own state over the user it was opened for. */
  class ProfileEditor {
    const user: User
    var tags: seq<string>
    var tagInput: string
    var error: string

    /** The list starts as the user's custom tags, or empty. */
    constructor (u: User)
      ensures user == u && tags == (if u.customTags.Some? then u.customTags.value else [])
      ensures tagInput == [] && error == []
    {
      user := u;
      tags := if u.customTags.Some? then u.customTags.value else [];
      tagInput, error := [], [];
    }

    /** Typing into the tag input. */
    method TypeTag(text: string)
      modifies this
      ensures tagInput == text && tags == old(tags) && error == old(error)
    {
      tagInput := text;
    }

    /** `addTag`; `pushed` is what it hands to `onUpdateUser`. */
    method AddTag() returns (pushed: Option<User>)
      modifies this
      ensures match TryAddTag(old(tags), old(tagInput))
        case Ignored => tags == old(tags) && tagInput == old(tagInput) && error == old(error) && pushed.None?
        case Refused(m) => tags == old(tags) && tagInput == old(tagInput) && error == m && pushed.None?
        case Added(t) => tags == t && tagInput == [] && error == [] && pushed == Some(user.(customTags := Some(t)))
      ensures |old(tags)| <= MaxTags ==> |tags| <= MaxTags
    {
      pushed := None;
      if Trim(tagInput) == [] {
        return;
      }
      if |tags| >= 3 {
        error := TooManyTags;
        return;
      }
      if |tagInput| > 10 {
        error := TagTooLong;
        return;
      }
      var newTags := tags + [Trim(ToUpper(tagInput))];
      tags := newTags;
      tagInput := [];
      error := [];
      pushed := Some(user.(customTags := Some(newTags)));
    }

    /** `removeTag(idx)`: drops position `idx` (any other index changes nothing) and
        pushes the user with the new list. */
    method RemoveTag(idx: int) returns (pushed: User)
      modifies this
      ensures tags == RemoveAt(old(tags), idx)
      ensures tagInput == old(tagInput) && error == old(error)
      ensures pushed == user.(customTags := Some(tags))
    {
      var newTags := RemoveAt(tags, idx);
      tags := newTags;
      pushed := user.(customTags := Some(newTags));
    }

    /** `handleImageUpload`: an oversized file sets the error; an accepted one is
        pushed as the new avatar (the error is left as it was). */
    method UploadAvatar(file: Option<AvatarFile>) returns (pushed: Option<User>)
      modifies this
      ensures tags == old(tags) && tagInput == old(tagInput)
      ensures match CheckAvatar(file)
        case NoFile => error == old(error) && pushed.None?
        case TooLarge => error == AvatarTooLarge && pushed.None?
        case Use(url) => error == old(error) && pushed == Some(user.(avatar := Some(url)))
    {
      pushed := None;
      if file.None? {
        return;
      }
      if file.value.size > 2 * 1024 * 1024 {
        error := AvatarTooLarge;
        return;
      }
      pushed := Some(user.(avatar := Some(file.value.dataUrl)));
    }
  }
}
