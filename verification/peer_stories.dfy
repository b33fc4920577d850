/**
 * The peer-stories feed: an "all" / "featured" filter over the stories, long stories shown
 * truncated to 200 characters plus "..." until expanded, and the set of expanded stories
 * kept as a toggle list of ids. The fixed sample stories are a parameter.
 */
module PeerStories {
  import Seqs

  datatype Story = Story(
    id: string, title: string, author: string, content: string,
    tags: seq<string>, likes: nat, comments: nat, date: string, featured: bool)

  datatype FeedFilter = All | Featured

  const DefaultMaxLength: nat := 200

  /** `truncateContent`: short content unchanged, else its first `maxLength` characters and "...". */
  function TruncateContent(content: string, maxLength: nat): (r: string)
    ensures |content| <= maxLength ==> r == content
    ensures |content| > maxLength ==> |r| == maxLength + 3 && r[..maxLength] == content[..maxLength]
    ensures |content| > maxLength ==> r[maxLength..] == "..."
  {
    if |content| <= maxLength then content else content[..maxLength] + "..."
  }

  /** Truncation never makes content longer than `maxLength + 3` and keeps a prefix of it. */
  lemma TruncationKeepsPrefix(content: string, maxLength: nat)
    ensures |TruncateContent(content, maxLength)| <= maxLength + 3
    ensures |TruncateContent(content, maxLength)| <= |content| + 3
    ensures forall i :: 0 <= i < |TruncateContent(content, maxLength)| && i < maxLength ==>
      TruncateContent(content, maxLength)[i] == content[i]
  {
  }

  /** `filteredStories`. */
  function FilteredStories(stories: seq<Story>, filter: FeedFilter): (r: seq<Story>)
    ensures filter == All ==> r == stories
    ensures filter == Featured ==> forall s :: s in r <==> s in stories && s.featured
    ensures filter == Featured ==>
      forall s :: multiset(r)[s] == if s.featured then multiset(stories)[s] else 0
  {
    if filter == Featured then Seqs.Filter((s: Story) => s.featured, stories) else stories
  }

  /** "featured" keeps exactly the featured stories, in order; "all" keeps every story. */
  lemma FilteredStoriesMeaning(stories: seq<Story>, filter: FeedFilter)
    ensures filter == All ==> FilteredStories(stories, filter) == stories
    ensures filter == Featured ==>
      forall s :: s in FilteredStories(stories, filter) <==> s in stories && s.featured
    ensures Seqs.IsSubsequence(FilteredStories(stories, filter), stories)
  {
    Seqs.FilterIsSubsequence((s: Story) => s.featured, stories);
    if filter == All {
      Seqs.IsSubsequenceReflexive(stories);
    }
  }

  /** Whether a story's text is long enough to be truncated (and offers Read more). */
  predicate ShouldTruncate(story: Story)
  {
    |story.content| > DefaultMaxLength
  }

  /** The text shown for a story: the full content when expanded or short, else truncated. */
  function DisplayedText(story: Story, expandedStories: seq<string>): (r: string)
    ensures (story.id in expandedStories || !ShouldTruncate(story)) ==> r == story.content
    ensures !(story.id in expandedStories) && ShouldTruncate(story) ==>
      r == story.content[..DefaultMaxLength] + "..." && |r| == DefaultMaxLength + 3
  {
    if story.id in expandedStories || !ShouldTruncate(story) then story.content
    else TruncateContent(story.content, DefaultMaxLength)
  }

  /** Expanding a long story and collapsing it again gives back the truncated text. */
  lemma ExpandThenCollapse(story: Story, expandedStories: seq<string>)
    requires story.id !in expandedStories
    ensures DisplayedText(story, Seqs.Toggle(expandedStories, story.id)) == story.content
    ensures DisplayedText(story, Seqs.Toggle(Seqs.Toggle(expandedStories, story.id), story.id))
      == DisplayedText(story, expandedStories)
  {
    Seqs.ToggleTwiceRestoresMembership(expandedStories, story.id);
  }

  class StoryFeed {
    var expandedStories: seq<string>
    var filter: FeedFilter

    /** Each id appears at most once among the expanded stories. */
    ghost predicate Valid()
      reads this
    {
      Seqs.NoDuplicates(expandedStories)
    }

    constructor ()
      ensures Valid() && expandedStories == [] && filter == All
    {
      expandedStories := [];
      filter := All;
    }

    /** `toggleExpanded`: collapses an expanded story, expands a collapsed one. */
    method ToggleExpanded(storyId: string)
      requires Valid()
      modifies this
      ensures Valid()
      ensures expandedStories == Seqs.Toggle(old(expandedStories), storyId)
      ensures storyId in expandedStories <==> storyId !in old(expandedStories)
      ensures filter == old(filter)
    {
      Seqs.ToggleKeepsNoDuplicates(expandedStories, storyId);
      expandedStories := Seqs.Toggle(expandedStories, storyId);
    }

    /** The filter buttons. */
    method SetFilter(f: FeedFilter)
      modifies this
      ensures filter == f && expandedStories == old(expandedStories)
    {
      filter := f;
    }
  }
}
