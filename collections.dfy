/** The collections page: creating a collection by hand or by the AI assistant,
    both metered by the subscription, downloading (premium only) and deleting. */
module UserCollections {
  import opened Wrappers
  import opened Text
  import opened Seqs
  import opened Subscription
  import opened Access
  import Auth

  datatype Collection = Collection(
    id: string,
    title: string,
    description: string,
    storiesCount: int,
    createdAt: int,
    isAiGenerated: bool)

  const AiTitlePrefix: string := "ИИ-подборка: "
  const AiDescriptionPrefix: string := "Автоматически созданная подборка на основе ваших навыков: "

  /** The page's two guards (a user, then a plan), then the handler's own: a non-blank
      input, then something left of the dimension. The blank test is stated on the
      characters; CreateGateTrims shows it is the handler's `!input.trim()`. */
  function CreateGate(signedIn: bool, s: UserSubscription, input: string, d: Dimension): (v: Verdict)
    ensures v == NeedLogin <==> !signedIn
    ensures v == NeedPlan <==> signedIn && s.planId.None?
    ensures v == MissingInput <==> signedIn && s.planId.Some? && AllWhitespace(input)
    ensures v == LimitReached <==>
      signedIn && s.planId.Some? && !AllWhitespace(input) && Used(s, d) >= PlanQuota(s.planId.value, d)
    ensures v == Granted <==>
      signedIn && s.planId.Some? && !AllWhitespace(input) && Used(s, d) < PlanQuota(s.planId.value, d)
  {
    if !signedIn then NeedLogin
    else if s.planId.None? then NeedPlan
    else if AllWhitespace(input) then MissingInput
    else QuotaGate(signedIn, s, d)
  }

  /** The gate is the handler's guard sequence as written, with `trim()` deciding the input test. */
  lemma CreateGateTrims(signedIn: bool, s: UserSubscription, input: string, d: Dimension)
    ensures CreateGate(signedIn, s, input, d) ==
      if !signedIn then NeedLogin
      else if s.planId.None? then NeedPlan
      else if Trim(input) == [] then MissingInput
      else if GetRemainingUsage(s, d) <= 0 then LimitReached
      else Granted
  {
    TrimEmptyIff(input);
  }

  /** The title of an AI collection: the prefix, the first 30 characters of the prompt, and "...". */
  function AiTitle(prompt: string): (title: string)
    ensures AiTitlePrefix <= title
    ensures |title| <= |AiTitlePrefix| + 30 + 3
  {
    AiTitlePrefix + Slice(prompt, 0, 30) + "..."
  }

  /** The title quotes the prompt whole when it is at most 30 characters long and its first
      30 characters otherwise; it is never longer than the prefix, 30 characters and "...". */
  lemma AiTitleQuotesPrompt(prompt: string)
    ensures AiTitle(prompt) == AiTitlePrefix + (if |prompt| <= 30 then prompt else prompt[..30]) + "..."
    ensures |AiTitle(prompt)| <= |AiTitlePrefix| + 30 + 3
  {
    SliceHead(prompt, 30);
  }

  /** The download button: the page's guards, then the plan must include downloads. */
  function DownloadGate(signedIn: bool, s: UserSubscription): (v: Verdict)
    ensures v == Granted <==> signedIn && s.planId == Some(Premium)
    ensures v == NotIncluded <==> signedIn && s.planId == Some(Basic)
    ensures v == NeedLogin <==> !signedIn
    ensures v == NeedPlan <==> signedIn && s.planId.None?
  {
    PremiumOnlyFeatures(s);
    if !signedIn then NeedLogin
    else if s.planId.None? then NeedPlan
    else if !CanUseFeature(s, DownloadCollections) then NotIncluded
    else Granted
  }

  /** Whenever the page itself is not shown, every collection action is refused for the
      page's reason: creating, creating with the AI assistant and downloading alike. */
  lemma PageGuardsComeFirst(signedIn: bool, s: UserSubscription, input: string)
    requires PlanGate(signedIn, s) != Granted
    ensures CreateGate(signedIn, s, input, Collections) == PlanGate(signedIn, s)
    ensures CreateGate(signedIn, s, input, AiCollections) == PlanGate(signedIn, s)
    ensures DownloadGate(signedIn, s) == PlanGate(signedIn, s)
  {
  }

  /** `prev.filter(c => c.id !== collectionId)`. */
  function DeleteById(collections: seq<Collection>, id: string): (r: seq<Collection>)
    ensures forall c :: c in r <==> c in collections && c.id != id
  {
    Filter(collections, (c: Collection) => c.id != id)
  }

  /** Deleting keeps the other collections in their order, and deleting an id no
      collection has changes nothing. */
  lemma DeleteKeepsOrder(a: seq<Collection>, b: seq<Collection>, id: string)
    ensures DeleteById(a + b, id) == DeleteById(a, id) + DeleteById(b, id)
    ensures (forall i :: 0 <= i < |a| ==> a[i].id != id) ==> DeleteById(a, id) == a
  {
    FilterConcat(a, b, (c: Collection) => c.id != id);
    if forall i :: 0 <= i < |a| ==> a[i].id != id {
      FilterAllPass(a, (c: Collection) => c.id != id);
    }
  }

  /** The collections page state. */
  class CollectionsPage {
    var collections: seq<Collection>
    var showCreateDialog: bool
    var showAiDialog: bool
    var newCollectionTitle: string
    var newCollectionDescription: string
    var aiPrompt: string

    constructor (initial: seq<Collection>)
      ensures collections == initial && !showCreateDialog && !showAiDialog
      ensures newCollectionTitle == [] && newCollectionDescription == [] && aiPrompt == []
    {
      collections := initial;
      showCreateDialog, showAiDialog := false, false;
      newCollectionTitle, newCollectionDescription, aiPrompt := [], [], [];
    }

    /** `handleCreateCollection()`: once the gate grants it, a new empty collection with the
        typed title (untrimmed) and description goes to the front, one collection is recorded,
        and the dialog closes and clears; otherwise nothing changes. */
    method HandleCreateCollection(user: Option<Auth.User>, store: SubscriptionStore, id: string, now: int)
      returns (v: Verdict)
      modifies this, store
      ensures v == CreateGate(user.Some?, old(store.userSubscription), old(newCollectionTitle), Collections)
      ensures v == Granted ==>
        collections == [Collection(id, old(newCollectionTitle), old(newCollectionDescription), 0, now, false)] + old(collections) &&
        newCollectionTitle == [] && newCollectionDescription == [] && !showCreateDialog &&
        store.userSubscription == Consume(old(store.userSubscription), Collections) && store.Persisted()
      ensures v != Granted ==>
        collections == old(collections) && newCollectionTitle == old(newCollectionTitle) &&
        newCollectionDescription == old(newCollectionDescription) && showCreateDialog == old(showCreateDialog) &&
        store.userSubscription == old(store.userSubscription) && store.saved == old(store.saved)
      ensures aiPrompt == old(aiPrompt) && showAiDialog == old(showAiDialog)
    {
      var s := store.userSubscription;
      v := CreateGate(user.Some?, s, newCollectionTitle, Collections);
      if v != Granted {
        return;
      }
      var created := Collection(id, newCollectionTitle, newCollectionDescription, 0, now, false);
      store.UpdateUsage(UsagePatch(Collections, Used(s, Collections) + 1));
      assert store.userSubscription == Consume(s, Collections);
      collections := [created] + collections;
      newCollectionTitle, newCollectionDescription := [], [];
      showCreateDialog := false;
    }

    /** `handleCreateAiCollection()`: once the gate grants it, an AI collection titled after the
        prompt and holding `draw + 5` stories (`draw` being `Math.floor(Math.random() * 15)`)
        goes to the front, one AI collection is recorded, and the dialog closes and clears;
        otherwise nothing changes. */
    method HandleCreateAiCollection(user: Option<Auth.User>, store: SubscriptionStore, id: string, now: int, draw: nat)
      returns (v: Verdict)
      requires draw < 15
      modifies this, store
      ensures v == CreateGate(user.Some?, old(store.userSubscription), old(aiPrompt), AiCollections)
      ensures v == Granted ==>
        collections == [Collection(id, AiTitle(old(aiPrompt)), AiDescriptionPrefix + old(aiPrompt), draw + 5, now, true)]
                       + old(collections) &&
        5 <= collections[0].storiesCount < 20 &&
        aiPrompt == [] && !showAiDialog &&
        store.userSubscription == Consume(old(store.userSubscription), AiCollections) && store.Persisted()
      ensures v != Granted ==>
        collections == old(collections) && aiPrompt == old(aiPrompt) && showAiDialog == old(showAiDialog) &&
        store.userSubscription == old(store.userSubscription) && store.saved == old(store.saved)
      ensures newCollectionTitle == old(newCollectionTitle) && newCollectionDescription == old(newCollectionDescription)
      ensures showCreateDialog == old(showCreateDialog)
    {
      var s := store.userSubscription;
      v := CreateGate(user.Some?, s, aiPrompt, AiCollections);
      if v != Granted {
        return;
      }
      var created := Collection(id, AiTitle(aiPrompt), AiDescriptionPrefix + aiPrompt, draw + 5, now, true);
      store.UpdateUsage(UsagePatch(AiCollections, Used(s, AiCollections) + 1));
      assert store.userSubscription == Consume(s, AiCollections);
      collections := [created] + collections;
      aiPrompt := [];
      showAiDialog := false;
    }

    /** `handleDelete(collectionId)`, reachable only on the shown page: every collection with
        that id goes, the rest stay in order. */
    method HandleDelete(user: Option<Auth.User>, s: UserSubscription, id: string) returns (v: Verdict)
      modifies this
      ensures v == PlanGate(user.Some?, s)
      ensures v == Granted ==> collections == DeleteById(old(collections), id)
      ensures v != Granted ==> collections == old(collections)
      ensures forall c :: c in collections <==> c in old(collections) && (v == Granted ==> c.id != id)
      ensures showCreateDialog == old(showCreateDialog) && showAiDialog == old(showAiDialog)
      ensures newCollectionTitle == old(newCollectionTitle) && newCollectionDescription == old(newCollectionDescription)
      ensures aiPrompt == old(aiPrompt)
    {
      v := PlanGate(user.Some?, s);
      if v == Granted {
        collections := DeleteById(collections, id);
      }
    }
  }
}
