/** The story page: its like button (metered, like the feed's), contacting the
    author, the profile link premium users see, and how the story text is laid
    out as headings, breaks and paragraphs. */
module StoryDetail {
  import opened Wrappers
  import opened Text
  import opened Subscription
  import opened Access
  import Auth

  /** `handleLike()`: the three guards of a metered action, then one like is recorded.
      Nothing else changes on this page. */
  method HandleLike(user: Option<Auth.User>, store: SubscriptionStore) returns (v: Verdict)
    modifies store
    ensures v == QuotaGate(user.Some?, old(store.userSubscription), Likes)
    ensures v == Granted ==> store.userSubscription == Consume(old(store.userSubscription), Likes) && store.Persisted()
    ensures v != Granted ==> store.userSubscription == old(store.userSubscription) && store.saved == old(store.saved)
  {
    var s := store.userSubscription;
    v := QuotaGate(user.Some?, s, Likes);
    if v == Granted {
      store.UpdateUsage(UsagePatch(Likes, Used(s, Likes) + 1));
    }
  }

  /** `handleContactAuthor()` is the plan gate alone: a user, then a plan. It is never
      metered: any subscriber may contact authors whatever the counters say, even with
      every quota spent. */
  lemma ContactIgnoresUsage(s: UserSubscription, d: Dimension)
    requires s.planId.Some?
    ensures QuotaGate(true, s, d) == LimitReached ==> PlanGate(true, s) == Granted
    ensures forall c: int, a: int, l: int, w: int ::
      PlanGate(true, s.(collectionsUsed := c, aiCollectionsUsed := a, likesUsed := l, viewsUsed := w)) == Granted
  {
  }

  /** `canViewProfile`: whether the author's name links to their profile. */
  function CanViewProfile(s: UserSubscription): (r: bool)
    ensures r <==> s.planId == Some(Premium)
  {
    PremiumOnlyFeatures(s);
    CanUseFeature(s, ViewUserProfiles)
  }

  /** One line of the story text as rendered. */
  datatype Block = Heading(text: string) | Break | Paragraph(text: string)

  /** The rule for one line: wrapped in `**` on both ends it is a heading of what lies
      between (`slice(2, -2)`), whitespace only it is a line break, otherwise a paragraph
      shown verbatim. */
  function RenderLine(line: string): (b: Block)
    ensures b.Heading? <==> StartsWith(line, "**") && EndsWith(line, "**")
    ensures b.Break? <==> !b.Heading? && AllWhitespace(line)
    ensures b.Paragraph? ==> b.text == line
  {
    TrimEmptyIff(line);
    if StartsWith(line, "**") && EndsWith(line, "**") then Heading(Slice(line, 2, -2))
    else if Trim(line) == [] then Break
    else Paragraph(line)
  }

  /** A heading shows exactly what its markers enclose: putting the markers back gives the
      line again. A line of two or three stars is a heading with no text. */
  lemma HeadingRoundTrip(line: string)
    requires StartsWith(line, "**") && EndsWith(line, "**")
    ensures |line| >= 4 ==> "**" + RenderLine(line).text + "**" == line
    ensures |line| < 4 ==> RenderLine(line).text == []
  {
    SliceInner(line);
    if |line| >= 4 {
      assert line == line[..2] + line[2..|line| - 2] + line[|line| - 2..];
    }
  }

  /** A line that is neither wrapped in `**` nor blank is shown as it is. */
  lemma PlainLineShown(line: string)
    requires !(StartsWith(line, "**") && EndsWith(line, "**")) && !AllWhitespace(line)
    ensures RenderLine(line) == Paragraph(line)
  {
  }

  /** The `map` over the lines: one block per line, in order. */
  function RenderLines(lines: seq<string>): (blocks: seq<Block>)
    ensures |blocks| == |lines|
    ensures forall i :: 0 <= i < |lines| ==> blocks[i] == RenderLine(lines[i])
  {
    seq(|lines|, i requires 0 <= i < |lines| => RenderLine(lines[i]))
  }

  /** Lines are rendered one by one: rendering two runs of lines one after the other is
      rendering their concatenation. */
  lemma RenderLinesConcat(a: seq<string>, b: seq<string>)
    ensures RenderLines(a + b) == RenderLines(a) + RenderLines(b)
  {
    assert forall i :: 0 <= i < |b| ==> (a + b)[|a| + i] == b[i];
  }

  /** `story.content.split('\n').map(...)`: one block per line of the story, so one more
      block than the story has line breaks. */
  function RenderContent(content: string): (blocks: seq<Block>)
    ensures |blocks| == |Split(content, '\n')| == multiset(content)['\n'] + 1
    ensures forall i :: 0 <= i < |blocks| ==> blocks[i] == RenderLine(Split(content, '\n')[i])
  {
    SplitCount(content, '\n');
    RenderLines(Split(content, '\n'))
  }

  /** The text a block shows; a break shows none. */
  function Shown(b: Block): string {
    match b
    case Heading(t) => t
    case Break => []
    case Paragraph(t) => t
  }

  /** The texts the blocks show, in order. */
  function ShownTexts(blocks: seq<Block>): (texts: seq<string>)
    ensures |texts| == |blocks|
    ensures forall i :: 0 <= i < |blocks| ==> texts[i] == Shown(blocks[i])
  {
    seq(|blocks|, i requires 0 <= i < |blocks| => Shown(blocks[i]))
  }

  /** The shown texts of two runs of blocks are the two runs' shown texts, one after the other. */
  lemma ShownTextsConcat(a: seq<Block>, b: seq<Block>)
    ensures ShownTexts(a + b) == ShownTexts(a) + ShownTexts(b)
  {
    assert forall i :: 0 <= i < |b| ==> (a + b)[|a| + i] == b[i];
  }

  /** Plain lines are shown one for one. */
  lemma PlainLinesShown(lines: seq<string>)
    requires forall line :: line in lines ==>
      !(StartsWith(line, "**") && EndsWith(line, "**")) && !AllWhitespace(line)
    ensures ShownTexts(RenderLines(lines)) == lines
  {
    var shown := ShownTexts(RenderLines(lines));
    forall i | 0 <= i < |lines| ensures shown[i] == lines[i] {
      assert lines[i] in lines;
      PlainLineShown(lines[i]);
    }
  }

  /** A story made only of plain paragraphs is shown in full: the paragraphs, joined by line
      breaks again, are the story text. */
  lemma PlainStoryShownInFull(content: string)
    requires forall line :: line in Split(content, '\n') ==>
      !(StartsWith(line, "**") && EndsWith(line, "**")) && !AllWhitespace(line)
    ensures Join(ShownTexts(RenderContent(content)), '\n') == content
  {
    PlainLinesShown(Split(content, '\n'));
    JoinSplit(content, '\n');
  }
}
