/**
 * The "new pitch" dialog (src/components/CreatePitchDialog.tsx): a title, a description and
 * up to five tags, typed one at a time into a tag field, then posted.
 */
module CreatePitchDialog {
  import opened Optional
  import opened JsString
  import opened JsArray

  const MaxTags := 5

  /** The tag list the dialog keeps: trimmed, non-empty, without repeats, at most five. */
  predicate TagsValid(tags: seq<string>) {
    && |tags| <= MaxTags
    && Distinct(tags)
    && forall i :: 0 <= i < |tags| ==> tags[i] != "" && Trim(tags[i]) == tags[i]
  }

  /** The test in `addTag`: a non-empty tag, not there yet (exact match), with room left. */
  predicate Accepts(tags: seq<string>, tag: string) {
    tag != "" && tag !in tags && |tags| < MaxTags
  }

  /** A trimmed tag the dialog accepts keeps the list valid. */
  lemma AcceptedTagKeepsValid(tags: seq<string>, typed: string)
    requires TagsValid(tags) && Accepts(tags, Trim(typed))
    ensures TagsValid(tags + [Trim(typed)])
  {
    var tag := Trim(typed);
    TrimOfTrimmed(tag);
    DistinctSnoc(tags, tag);
  }

  /** `tags.filter(t => t !== tag)`. */
  function Without(tags: seq<string>, tag: string): (r: seq<string>)
    ensures tag !in r
    ensures forall t :: t != tag ==> (t in r <==> t in tags)
  {
    Filter(tags, (t: string) => t != tag)
  }

  /**
   * Removal keeps the other tags in their order: it works piece by piece over any split of
   * the list, and a tag that is absent leaves the list as it was.
   */
  lemma WithoutKeepsOrder(a: seq<string>, b: seq<string>, tag: string)
    ensures Without(a + b, tag) == Without(a, tag) + Without(b, tag)
    ensures tag !in a ==> Without(a, tag) == a
  {
    FilterAppend(a, b, (t: string) => t != tag);
    if tag !in a {
      FilterKeepsAll(a, (t: string) => t != tag);
    }
  }

  /** Removing a tag keeps the list valid. */
  lemma RemovedTagKeepsValid(tags: seq<string>, tag: string)
    requires TagsValid(tags)
    ensures TagsValid(Without(tags, tag))
  {
    FilterDistinct(tags, (t: string) => t != tag);
    var r := Without(tags, tag);
    forall i | 0 <= i < |r|
      ensures r[i] != "" && Trim(r[i]) == r[i]
    {
      assert r[i] in tags;
    }
  }

  /** The row the dialog inserts into the pitches table. */
  datatype PitchInsert = PitchInsert(userId: string, title: string, description: string, tags: seq<string>)

  class PitchDialog {
    var open: bool
    var title: string
    var description: string
    var tagInput: string
    var tags: seq<string>
    var loading: bool

    predicate Valid()
      reads this
    {
      TagsValid(tags)
    }

    constructor ()
      ensures Valid()
      ensures !open && title == "" && description == "" && tagInput == "" && tags == [] && !loading
    {
      open, title, description, tagInput, tags, loading := false, "", "", "", [], false;
    }

    /**
     * `addTag`: a trimmed tag the list accepts goes at the end and the tag field is cleared;
     * otherwise nothing changes, not even the tag field.
     */
    method AddTag()
      requires Valid()
      modifies this
      ensures Valid()
      ensures Accepts(old(tags), Trim(old(tagInput))) ==>
        tags == old(tags) + [Trim(old(tagInput))] && tagInput == ""
      ensures !Accepts(old(tags), Trim(old(tagInput))) ==>
        tags == old(tags) && tagInput == old(tagInput)
      ensures open == old(open) && title == old(title) && description == old(description)
      ensures loading == old(loading)
    {
      var tag := Trim(tagInput);
      if tag != "" && tag !in tags && |tags| < MaxTags {
        AcceptedTagKeepsValid(tags, tagInput);
        tags := tags + [tag];
        tagInput := "";
      }
    }

    /** `removeTag`: every copy of the tag goes; the others stay, in order. */
    method RemoveTag(tag: string)
      requires Valid()
      modifies this
      ensures Valid() && tags == Without(old(tags), tag)
      ensures open == old(open) && title == old(title) && description == old(description)
      ensures tagInput == old(tagInput) && loading == old(loading)
    {
      RemovedTagKeepsValid(tags, tag);
      tags := Without(tags, tag);
    }

    /**
     * `handleSubmit`, with `fails` standing for the insert's answer. Without a user nothing
     * happens. Otherwise the pitch is inserted as typed; after a successful insert the form is
     * emptied (the tag field excepted), the dialog closes and the feed is told; after a failed
     * one everything is kept. Loading is over either way.
     */
    method Submit(user: Option<string>, fails: bool) returns (insert: Option<PitchInsert>, created: bool)
      requires Valid()
      modifies this
      ensures Valid()
      ensures user.None? ==>
        insert.None? && !created && open == old(open) && title == old(title)
        && description == old(description) && tags == old(tags) && loading == old(loading)
      ensures user.Some? ==>
        insert == Some(PitchInsert(user.value, old(title), old(description), old(tags))) && !loading
      ensures user.Some? && !fails ==>
        created && !open && title == "" && description == "" && tags == []
      ensures user.Some? && fails ==>
        !created && open == old(open) && title == old(title) && description == old(description)
        && tags == old(tags)
      ensures tagInput == old(tagInput)
    {
      insert, created := None, false;
      if user.None? {
        return;
      }
      loading := true;
      insert := Some(PitchInsert(user.value, title, description, tags));
      if !fails {
        title := "";
        description := "";
        tags := [];
        open := false;
        created := true;
      }
      loading := false;
    }
  }
}
