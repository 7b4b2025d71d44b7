/**
 * The browser-local story library of src/components/StoryLibrary.tsx.
 *
 * The component keeps its list of stories in state and mirrors it in the
 * browser's storage under one key. Saving the current story prepends it to
 * the stored list unless a story with the same content is already stored;
 * deleting filters the displayed list by id and writes the result to both.
 * The clock (used for ids and timestamps) is passed in.
 */
module StoryLibrary {
  import opened Wrappers
  import opened Strings

  datatype Story = Story(id: string, title: string, content: string, createdAt: string)

  /** The story the page hands in: `currentStory`, when there is one. */
  datatype StoryInput = StoryInput(title: string, content: string)

  // ---------------------------------------------------------------------------
  // List operations
  // ---------------------------------------------------------------------------

  /** `list.some((story) => story.content === content)` */
  predicate HasContent(list: seq<Story>, content: string) {
    exists i :: 0 <= i < |list| && list[i].content == content
  }

  predicate DistinctContents(list: seq<Story>) {
    forall i, j :: 0 <= i < j < |list| ==> list[i].content != list[j].content
  }

  /** The stored list after a save: unchanged for a duplicate, otherwise the new story in front. */
  function Saved(existing: seq<Story>, story: Story): (list: seq<Story>)
    ensures HasContent(existing, story.content) ==> list == existing
    ensures !HasContent(existing, story.content) ==> list == [story] + existing
  {
    if HasContent(existing, story.content) then existing else [story] + existing
  }

  /** Saving never introduces a second story with the same content. */
  lemma SavedKeepsContentsDistinct(existing: seq<Story>, story: Story)
    requires DistinctContents(existing)
    ensures DistinctContents(Saved(existing, story))
    ensures HasContent(Saved(existing, story), story.content)
  {
    var list := Saved(existing, story);
    if !HasContent(existing, story.content) {
      forall i, j | 0 <= i < j < |list|
        ensures list[i].content != list[j].content
      {
        if i == 0 {
          assert list[j] == existing[j - 1];
        } else {
          assert list[i] == existing[i - 1] && list[j] == existing[j - 1];
        }
      }
      assert list[0] == story;
    }
  }

  /** `list.filter((story) => story.id !== id)` */
  function Without(list: seq<Story>, id: string): (kept: seq<Story>)
    ensures |kept| <= |list|
    ensures forall s :: s in kept <==> s in list && s.id != id
  {
    if list == [] then []
    else if list[0].id == id then Without(list[1..], id)
    else [list[0]] + Without(list[1..], id)
  }

  /** Deleting an id no story has leaves the list as it is. */
  lemma {:induction false} WithoutUnknownId(list: seq<Story>, id: string)
    requires forall i :: 0 <= i < |list| ==> list[i].id != id
    ensures Without(list, id) == list
  {
    if list != [] {
      WithoutUnknownId(list[1..], id);
      assert [list[0]] + list[1..] == list;
    }
  }

  /** Filtering keeps the relative order: it distributes over concatenation. */
  lemma {:induction false} WithoutAppend(a: seq<Story>, b: seq<Story>, id: string)
    ensures Without(a + b, id) == Without(a, id) + Without(b, id)
  {
    if a == [] {
      assert a + b == b;
    } else {
      assert (a + b)[0] == a[0];
      assert (a + b)[1..] == a[1..] + b;
      WithoutAppend(a[1..], b, id);
    }
  }

  /** Deleting a story's id right after saving it takes it out again. */
  lemma SaveThenDelete(existing: seq<Story>, story: Story)
    requires forall i :: 0 <= i < |existing| ==> existing[i].id != story.id
    ensures Without(Saved(existing, story), story.id) == existing
  {
    WithoutUnknownId(existing, story.id);
    if !HasContent(existing, story.content) {
      WithoutAppend([story], existing, story.id);
      assert Without([story], story.id) == [];
    }
  }

  /** Deleting keeps the contents pairwise distinct. */
  lemma {:induction false} WithoutKeepsContentsDistinct(list: seq<Story>, id: string)
    requires DistinctContents(list)
    ensures DistinctContents(Without(list, id))
  {
    if list != [] {
      var tail := list[1..];
      assert forall i :: 0 <= i < |tail| ==> tail[i] == list[i + 1];
      WithoutKeepsContentsDistinct(tail, id);
      if list[0].id != id {
        var rest := Without(tail, id);
        var kept := [list[0]] + rest;
        forall i, j | 0 <= i < j < |kept|
          ensures kept[i].content != kept[j].content
        {
          assert kept[j] == rest[j - 1];
          if i == 0 {
            assert rest[j - 1] in tail;
            var k :| 0 <= k < |tail| && tail[k] == rest[j - 1];
            assert list[k + 1] == kept[j];
          } else {
            assert kept[i] == rest[i - 1];
          }
        }
      }
    }
  }

  /** `story-${Date.now()}` */
  function StoryId(now: nat): (id: string)
    ensures |id| > 6 && id[..6] == "story-"
    ensures forall i :: 6 <= i < |id| ==> IsDigit(id[i])
  {
    "story-" + Decimal(now)
  }

  /** Two saves at different instants get different ids; the digits are the instant. */
  lemma StoryIdInjective(a: nat, b: nat)
    requires StoryId(a) == StoryId(b)
    ensures a == b
    ensures DigitsValue(StoryId(a)[6..]) == a
  {
    assert StoryId(a)[6..] == Decimal(a);
    assert StoryId(b)[6..] == Decimal(b);
    DecimalInjective(a, b);
    DecimalValue(a);
  }

  /** The auto-save effect fires only for a current story with a title and content. */
  predicate ShouldAutoSave(current: Option<StoryInput>) {
    current.Some? && current.value.title != [] && current.value.content != []
  }

  // ---------------------------------------------------------------------------
  // The component's state
  // ---------------------------------------------------------------------------

  class Library {
    /** The displayed list (`stories`). */
    var stories: seq<Story>
    /** The value under the storage key, or `None` when nothing was ever stored. */
    var stored: Option<seq<Story>>

    /**
     * Only this component writes the storage key, so both lists hold each
     * content at most once.
     */
    ghost predicate Valid()
      reads this
    {
      && DistinctContents(stories)
      && (stored.Some? ==> DistinctContents(stored.value))
    }

    constructor (stored: Option<seq<Story>>)
      requires stored.Some? ==> DistinctContents(stored.value)
      ensures Valid()
      ensures this.stories == [] && this.stored == stored
    {
      this.stories := [];
      this.stored := stored;
    }

    /** `loadStories`: show what is stored; with nothing stored the list stays as it is. */
    method Load()
      requires Valid()
      modifies this
      ensures Valid()
      ensures stored == old(stored)
      ensures old(stored).Some? ==> stories == old(stored).value
      ensures old(stored).None? ==> stories == old(stories)
    {
      if stored.Some? {
        stories := stored.value;
      }
    }

    /**
     * `saveCurrentStory`: the duplicate check looks at the stored list, not at
     * the displayed one, and a save writes the new list to both.
     */
    method Save(current: Option<StoryInput>, now: nat, createdAt: string) returns (saved: bool)
      requires Valid()
      modifies this
      ensures Valid()
      ensures var existing := old(stored).GetOr([]);
        saved <==> current.Some? && !HasContent(existing, current.value.content)
      ensures saved ==>
        var story := Story(StoryId(now), current.value.title, current.value.content, createdAt);
        && stored == Some([story] + old(stored).GetOr([]))
        && stories == stored.value
      ensures !saved ==> stored == old(stored) && stories == old(stories)
    {
      if current.None? {
        return false;
      }
      var story := Story(StoryId(now), current.value.title, current.value.content, createdAt);
      var existing := stored.GetOr([]);
      if HasContent(existing, story.content) {
        return false;
      }
      var updated := Saved(existing, story);
      SavedKeepsContentsDistinct(existing, story);
      stored := Some(updated);
      stories := updated;
      saved := true;
    }

    /** The effect on `currentStory`: save it when it has a title and content. */
    method AutoSave(current: Option<StoryInput>, now: nat, createdAt: string) returns (saved: bool)
      requires Valid()
      modifies this
      ensures Valid()
      ensures saved ==> ShouldAutoSave(current)
      ensures !ShouldAutoSave(current) ==> stored == old(stored) && stories == old(stories)
      ensures ShouldAutoSave(current) ==>
        var story := Story(StoryId(now), current.value.title, current.value.content, createdAt);
        && stored == Some(Saved(old(stored).GetOr([]), story))
        && (saved ==> stories == stored.value)
        && (!saved ==> stories == old(stories))
    {
      if !ShouldAutoSave(current) {
        return false;
      }
      saved := Save(current, now, createdAt);
    }

    /** `deleteStory`: filter the displayed list and store the result. */
    method Delete(id: string)
      requires Valid()
      modifies this
      ensures Valid()
      ensures stories == Without(old(stories), id)
      ensures stored == Some(stories)
    {
      WithoutKeepsContentsDistinct(stories, id);
      stories := Without(stories, id);
      stored := Some(stories);
    }
  }
}
