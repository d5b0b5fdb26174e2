/** The story feed: the tag list, search, tag filter and sort that produce the
    visible stories, and the like and view handlers, which are metered by the
    subscription. */
module Stories {
  import opened Wrappers
  import opened Text
  import opened Seqs
  import opened Subscription
  import opened Access
  import Auth

  datatype Story = Story(
    id: string,
    title: string,
    excerpt: string,
    content: string,
    authorId: string,
    authorName: string,
    tags: seq<string>,
    likes: int,
    views: int,
    createdAt: int,
    isLiked: bool)

  /** `stories.flatMap(story => story.tags)`: the tags of every story, in story order. */
  function TagOccurrences(stories: seq<Story>): (all: seq<string>)
    ensures forall t :: t in all <==> exists i :: 0 <= i < |stories| && t in stories[i].tags
    decreases |stories|
  {
    if stories == [] then []
    else
      var rest := TagOccurrences(stories[1..]);
      assert forall i :: 0 < i < |stories| ==> stories[i] == stories[1..][i - 1];
      stories[0].tags + rest
  }

  /** `allTags`: every tag that some story carries, each exactly once. */
  function AllTags(stories: seq<Story>): (tags: seq<string>)
    ensures NoDup(tags)
    ensures forall t :: t in tags <==> exists i :: 0 <= i < |stories| && t in stories[i].tags
  {
    Distinct(TagOccurrences(stories))
  }

  /** The search condition: the lower-cased query occurs in the lower-cased title,
      excerpt or one of the tags. */
  predicate MatchesQuery(story: Story, query: string) {
    var q := Lower(query);
    Includes(Lower(story.title), q) || Includes(Lower(story.excerpt), q) ||
    exists i :: 0 <= i < |story.tags| && Includes(Lower(story.tags[i]), q)
  }

  /** The tag condition: no tag selected, or the story carries the selected one. */
  predicate HasSelectedTag(story: Story, selectedTag: string) {
    selectedTag == [] || selectedTag in story.tags
  }

  /** The empty query lets every story through. */
  lemma EmptyQueryMatchesAll(story: Story)
    ensures MatchesQuery(story, "")
  {
  }

  datatype SortOrder = ByLikes | ByViews | ByRecent

  /** The `sortBy` switch: "likes", "views", and anything else (the default "recent" among it) by date. */
  function SortOrderOf(sortBy: string): SortOrder {
    if sortBy == "likes" then ByLikes
    else if sortBy == "views" then ByViews
    else ByRecent
  }

  /** What the comparator compares: likes, views, or the creation time in ms. */
  function SortKey(story: Story, order: SortOrder): int {
    match order
    case ByLikes => story.likes
    case ByViews => story.views
    case ByRecent => story.createdAt
  }

  /** Non-increasing in the key: the order of the comparator `b.key - a.key`. */
  predicate SortedDesc(s: seq<Story>, order: SortOrder) {
    forall i, j :: 0 <= i < j < |s| ==> SortKey(s[i], order) >= SortKey(s[j], order)
  }

  /** A story whose key is not below the head of a sorted list can go in front of it. */
  lemma ConsSorted(h: Story, s: seq<Story>, order: SortOrder)
    requires SortedDesc(s, order)
    requires s == [] || SortKey(h, order) >= SortKey(s[0], order)
    ensures SortedDesc([h] + s, order)
  {
    var r := [h] + s;
    forall i, j | 0 <= i < j < |r| ensures SortKey(r[i], order) >= SortKey(r[j], order) {
      if i == 0 && j > 1 {
        assert r[j] == s[j - 1];
      }
    }
  }

  /** Places `x` into a list already in order, ahead of the first element whose key is not larger. */
  function InsertDesc(x: Story, sorted: seq<Story>, order: SortOrder): (r: seq<Story>)
    requires SortedDesc(sorted, order)
    ensures SortedDesc(r, order)
    ensures multiset(r) == multiset(sorted) + multiset{x}
    ensures |r| == |sorted| + 1 && (r[0] == x || (sorted != [] && r[0] == sorted[0]))
    decreases |sorted|
  {
    if sorted == [] || SortKey(sorted[0], order) <= SortKey(x, order) then
      ConsSorted(x, sorted, order);
      [x] + sorted
    else
      var tail := sorted[1..];
      assert sorted == [sorted[0]] + tail;
      assert tail == [] || SortKey(sorted[0], order) >= SortKey(tail[0], order);
      var rest := InsertDesc(x, tail, order);
      ConsSorted(sorted[0], rest, order);
      [sorted[0]] + rest
  }

  /** The `sort` call: the same stories, in non-increasing key order. */
  function SortDesc(s: seq<Story>, order: SortOrder): (r: seq<Story>)
    ensures SortedDesc(r, order)
    ensures multiset(r) == multiset(s)
    decreases |s|
  {
    if s == [] then []
    else
      assert s == [s[0]] + s[1..];
      InsertDesc(s[0], SortDesc(s[1..], order), order)
  }

  /** `filteredStories`: search, then tag filter, then sort. */
  function FilteredStories(stories: seq<Story>, searchQuery: string, selectedTag: string, sortBy: string): (r: seq<Story>)
    ensures SortedDesc(r, SortOrderOf(sortBy))
  {
    var found := Filter(stories, s => MatchesQuery(s, searchQuery));
    var tagged := Filter(found, s => HasSelectedTag(s, selectedTag));
    SortDesc(tagged, SortOrderOf(sortBy))
  }

  /** The visible stories are exactly the stories that pass both filters, each as often as
      it occurs in the feed, ordered by the chosen key; with no query and no tag, the whole feed. */
  lemma FilteredStoriesContents(stories: seq<Story>, searchQuery: string, selectedTag: string, sortBy: string)
    ensures forall x :: multiset(FilteredStories(stories, searchQuery, selectedTag, sortBy))[x] ==
                        if MatchesQuery(x, searchQuery) && HasSelectedTag(x, selectedTag) then multiset(stories)[x] else 0
    ensures searchQuery == [] && selectedTag == [] ==>
      multiset(FilteredStories(stories, searchQuery, selectedTag, sortBy)) == multiset(stories)
  {
    var found := Filter(stories, s => MatchesQuery(s, searchQuery));
    var tagged := Filter(found, s => HasSelectedTag(s, selectedTag));
    forall x
      ensures multiset(FilteredStories(stories, searchQuery, selectedTag, sortBy))[x] ==
        if MatchesQuery(x, searchQuery) && HasSelectedTag(x, selectedTag) then multiset(stories)[x] else 0
    {
      FilterCount(stories, s => MatchesQuery(s, searchQuery), x);
      FilterCount(found, s => HasSelectedTag(s, selectedTag), x);
    }
    if searchQuery == [] && selectedTag == [] {
      forall i | 0 <= i < |stories| ensures MatchesQuery(stories[i], searchQuery) {
        EmptyQueryMatchesAll(stories[i]);
      }
      FilterAllPass(stories, s => MatchesQuery(s, searchQuery));
      FilterAllPass(found, s => HasSelectedTag(s, selectedTag));
    }
  }

  /** One like or unlike: the flag flips and the count moves up or down by one accordingly,
      so the likes of everybody else (the count less one's own like) stay as they were,
      and so does every other field. */
  function LikeToggled(story: Story): (r: Story)
    ensures r.isLiked == !story.isLiked
    ensures r.likes - (if r.isLiked then 1 else 0) == story.likes - (if story.isLiked then 1 else 0)
    ensures r == story.(likes := r.likes, isLiked := r.isLiked)
  {
    story.(likes := if story.isLiked then story.likes - 1 else story.likes + 1, isLiked := !story.isLiked)
  }

  /** The `map` of `handleLike`: every story with that id toggled, every other one as it was. */
  function ToggleLike(stories: seq<Story>, id: string): (r: seq<Story>)
    ensures |r| == |stories|
    ensures forall i :: 0 <= i < |stories| ==>
      r[i] == if stories[i].id == id then LikeToggled(stories[i]) else stories[i]
    decreases |stories|
  {
    if stories == [] then []
    else [if stories[0].id == id then LikeToggled(stories[0]) else stories[0]] + ToggleLike(stories[1..], id)
  }

  /** Liking twice undoes the like: toggling is its own inverse. */
  lemma ToggleLikeTwice(stories: seq<Story>, id: string)
    ensures ToggleLike(ToggleLike(stories, id), id) == stories
  {
    var once := ToggleLike(stories, id);
    var twice := ToggleLike(once, id);
    forall i | 0 <= i < |stories| ensures twice[i] == stories[i] {
      assert once[i].id == stories[i].id;
    }
  }

  /** The stories page state. */
  class StoriesPage {
    var stories: seq<Story>
    var searchQuery: string
    var selectedTag: string
    var sortBy: string

    constructor (initial: seq<Story>)
      ensures stories == initial && searchQuery == [] && selectedTag == [] && sortBy == "recent"
    {
      stories := initial;
      searchQuery := [];
      selectedTag := [];
      sortBy := "recent";
    }

    /** `handleLike(storyId)`: refused without a user, without a plan, or with no likes left,
        and then nothing changes; otherwise the story is liked or unliked and one like is
        recorded either way. */
    method HandleLike(storyId: string, user: Option<Auth.User>, store: SubscriptionStore) returns (v: Verdict)
      modifies this, store
      ensures v == QuotaGate(user.Some?, old(store.userSubscription), Likes)
      ensures v == Granted ==> stories == ToggleLike(old(stories), storyId)
      ensures v == Granted ==> store.userSubscription == Consume(old(store.userSubscription), Likes) && store.Persisted()
      ensures v != Granted ==> stories == old(stories)
      ensures v != Granted ==> store.userSubscription == old(store.userSubscription) && store.saved == old(store.saved)
      ensures searchQuery == old(searchQuery) && selectedTag == old(selectedTag) && sortBy == old(sortBy)
    {
      v := QuotaGate(user.Some?, store.userSubscription, Likes);
      if v == Granted {
        stories := ToggleLike(stories, storyId);
        store.UpdateUsage(UsagePatch(Likes, store.userSubscription.likesUsed + 1));
      }
    }

    /** `handleView(storyId)`: refused in the same three cases; otherwise one view is recorded.
        The stories themselves are not touched. */
    method HandleView(storyId: string, user: Option<Auth.User>, store: SubscriptionStore) returns (v: Verdict)
      modifies store
      ensures v == QuotaGate(user.Some?, old(store.userSubscription), Views)
      ensures v == Granted ==> store.userSubscription == Consume(old(store.userSubscription), Views) && store.Persisted()
      ensures v != Granted ==> store.userSubscription == old(store.userSubscription) && store.saved == old(store.saved)
    {
      v := QuotaGate(user.Some?, store.userSubscription, Views);
      if v == Granted {
        store.UpdateUsage(UsagePatch(Views, store.userSubscription.viewsUsed + 1));
      }
    }
  }
}
