# needvox: entitlement store, identity store and page actions

needvox is a web app where people post stories about real needs, and entrepreneurs read them for product ideas.

This project models the app's logic in Dafny:

- **The subscription store.** Two plans (basic, premium), each with four metered quotas (collections, AI collections, likes, views) and two premium-only features. One usage record holds the four counters. `subscribe`, `cancelSubscription` and `updateUsage` replace that record and persist it. `getRemainingUsage` and `canUseFeature` read it.
- **The auth store.** A nullable user, with mock sign-in, registration, sign-out, a partial update, and session restore.
- **The rules the page handlers apply on top of the stores:**
  - the stories feed: tag list, search, tag filter, sort, like and view;
  - the story form: tag editing, confirmation checkboxes, submit condition, submit;
  - the collections page: access guards, manual and AI creation, download, delete;
  - the story page: like, contact author, profile link, how the story text is laid out;
  - the pricing page: price, yearly saving, subscribe, the disabled button;
  - the chat page: initial selection, selected dialogue lookup, sending a message.

Modules:

- `Wrappers` holds `Option`.
- `Text` and `Seqs` hold the JavaScript string and array operations the pages use: `trim`, `toLowerCase`, `includes`, `startsWith`, `endsWith`, `split`, `slice`, `filter`, and `Array.from(new Set(...))`. `Text` also defines `Join`, which no page calls: it is the inverse of `split`, used to state that splitting a story into lines loses nothing.
- `Subscription` and `Auth` are the two context providers. Each is a class whose methods change its fields. The field `saved` stands for the browser storage key the provider writes.
- `Access` holds the guards the handlers share. One checks a user, then a plan. The metered one adds a check that something is left. `Access` also holds the usage update that follows a granted action.
- `Stories`, `CreateStory`, `UserCollections`, `StoryDetail`, `Pricing` and `Chat` each model one page. Page state the handlers update is a class; the rest are functions.

The guarded handlers (like, view, collection creation, download, delete, story submit, subscribe) return an `Access.Verdict`: the reason for the refusal, or `Granted`. Where the source shows a toast and returns, the model returns the verdict and changes nothing. The chat page's send returns whether the message was sent. The form handlers that only edit the form (tags, custom tag, criteria) return nothing; their contracts say when the state stays as it was.

Two behaviours of the source that are easy to miss:

- **Initial chat selection.** The initial selection is `chats[0]?.id || null`. It is `null` when there are no chats, and also when the first chat's id is the empty string, because that id is falsy.
- **`canUseFeature` on a quota key.** For a quota key it returns the quota number itself rather than a boolean. Its callers use it as a condition, so the model reads it by JavaScript truthiness (a non-zero quota). `QuotaKeysEnabled` shows every catalog quota reads as true.

## Model

| member | source | states |
|---|---|---|
| Text.Trim | src/pages/CreateStoryPage.tsx:77-78 | `trim()` keeps no whitespace at either end and never lengthens the string |
| Text.TrimStartDrops | src/pages/CreateStoryPage.tsx:61 | what `trim` drops from the front is whitespace only |
| Text.TrimEndDrops | src/pages/CreateStoryPage.tsx:61 | what `trim` drops from the back is whitespace only |
| Text.TrimEmptyIff | src/pages/CollectionsPage.tsx:89 | `s.trim()` is empty (falsy) exactly when `s` is whitespace only |
| Text.TrimIdempotent | src/pages/CreateStoryPage.tsx:61-62 | trimming an already trimmed tag changes nothing |
| Text.Lower | src/pages/StoriesPage.tsx:88-90 | the model's fold of `toLowerCase` maps each character to one character, so it keeps the length |
| Text.LowerIdempotent | src/pages/StoriesPage.tsx:88-90 | lower-casing twice is lower-casing once |
| Text.Includes | src/pages/StoriesPage.tsx:88-92 | `includes`: the needle is a prefix of the text or occurs in its tail; IncludesIffOccurs ties it to "starts at some position" |
| Text.IncludesIffOccurs | src/pages/StoriesPage.tsx:88-90 | `includes` holds exactly when the needle starts at some position of the text |
| Text.Split | src/pages/StoryDetailPage.tsx:151 | `split(sep)` gives at least one piece, no piece holds the separator, and the first piece is the prefix before the first separator |
| Text.SplitCount | src/pages/StoryDetailPage.tsx:151 | there is one piece more than there are separators |
| Text.SplitPiece | src/pages/StoryDetailPage.tsx:151 | a string without the separator splits into itself |
| Text.SplitAfterPiece | src/pages/StoryDetailPage.tsx:151 | a piece followed by the separator is split off as the first piece |
| Text.JoinSplit | src/pages/StoryDetailPage.tsx:151 | joining the pieces of a split with the separator gives the original string back |
| Text.JoinCons | src/pages/StoryDetailPage.tsx:151 | joining puts exactly one separator between a piece and the pieces after it |
| Text.SplitJoin | src/pages/StoryDetailPage.tsx:151 | pieces without the separator are recovered by splitting their join |
| Text.SliceIndex | src/pages/StoryDetailPage.tsx:155 | a `slice` index, negative or too large, is resolved into the string's bounds |
| Text.Slice | src/pages/StoryDetailPage.tsx:155 | `slice` never lengthens the string |
| Text.SliceInner | src/pages/StoryDetailPage.tsx:155 | `slice(2, -2)` drops two characters from each end, and gives "" for at most four characters |
| Text.SliceHead | src/pages/CollectionsPage.tsx:136 | `slice(0, n)` keeps the first `n` characters, or all of a shorter string |
| Seqs.Filter | src/pages/CollectionsPage.tsx:165 | `filter` keeps exactly the elements that pass, and never lengthens the list |
| Seqs.FilterCount | src/pages/StoriesPage.tsx:86-92 | each passing element is kept as often as it occurs; each failing one never |
| Seqs.FilterConcat | src/pages/CollectionsPage.tsx:165 | filtering keeps the relative order of the survivors |
| Seqs.FilterAllPass | src/pages/CreateStoryPage.tsx:55 | a list whose every element passes is kept whole |
| Seqs.FilterNoDup | src/pages/CreateStoryPage.tsx:55 | filtering a duplicate-free list leaves it duplicate-free |
| Seqs.AppendNoDup | src/pages/CreateStoryPage.tsx:61-62 | appending an element not yet present keeps a list duplicate-free |
| Seqs.Distinct | src/pages/StoriesPage.tsx:84 | `Array.from(new Set(s))` has no duplicates and the same elements as `s` |
| Seqs.DistinctAppend | src/pages/StoriesPage.tsx:84 | the set keeps first occurrences in order: a new element goes at the end, a repeat changes nothing |
| Seqs.DistinctOfNoDup | src/pages/StoriesPage.tsx:84 | a duplicate-free list goes through the set unchanged |
| Subscription.FindPlan | src/contexts/SubscriptionContext.tsx:149 | `PLANS.find` finds a plan with the id exactly when the list has one |
| Subscription.CatalogPlan | src/contexts/SubscriptionContext.tsx:48-77 | every plan id has a catalog entry with that id |
| Subscription.FindPlanInCatalog | src/contexts/SubscriptionContext.tsx:149-150 | the catalog lookup always succeeds, so the `!plan` fallback is never taken |
| Subscription.PlanQuota | src/contexts/SubscriptionContext.tsx:48-77 | every catalog quota is positive |
| Subscription.GetRemainingUsage | src/contexts/SubscriptionContext.tsx:155-165 | the remaining usage is never negative and is 0 without a plan; with a plan it is positive exactly when less than the quota is used, and then it is quota minus used |
| Subscription.CanUseFeature | src/contexts/SubscriptionContext.tsx:146-153 | false without a plan; otherwise the plan's table entry read as a condition |
| Subscription.PremiumOnlyFeatures | src/contexts/SubscriptionContext.tsx:59-60 | downloads and profile views are usable exactly on the premium plan |
| Subscription.QuotaKeysEnabled | src/contexts/SubscriptionContext.tsx:151-152 | with a plan, every quota key reads as enabled |
| Subscription.LookupsIgnoreExpiry | src/contexts/SubscriptionContext.tsx:146-165 | neither lookup reads the expiry date or the billing cadence |
| Subscription.Subscribed | src/contexts/SubscriptionContext.tsx:104-118 | the record `subscribe` writes has the chosen plan and cadence, expires 12 or 1 months on, has every counter at 0 and the full quota remaining |
| Subscription.CancelRevokesEverything | src/contexts/SubscriptionContext.tsx:126-136 | after a cancellation no feature is usable, nothing remains and every counter is 0 |
| Subscription.Merge | src/contexts/SubscriptionContext.tsx:141 | `{ ...s, ...u }`: each field of the patch that is present replaces the record's; MergeUsage and MergeLaws state its laws |
| Subscription.MergeUsage | src/contexts/SubscriptionContext.tsx:140-141 | a usage patch sets its one counter and leaves the other counters, the plan, the cadence and the expiry alone |
| Subscription.MergeLaws | src/contexts/SubscriptionContext.tsx:141 | the spread merge with an empty patch changes nothing, and merging a patch twice is merging it once |
| Subscription.SubscriptionStore.constructor | src/contexts/SubscriptionContext.tsx:80-88 | the provider starts with no subscription, over storage as it was left |
| Subscription.SubscriptionStore.RestoreOnLoad | src/contexts/SubscriptionContext.tsx:90-99 | a stored record becomes the current one; without one the state stays |
| Subscription.SubscriptionStore.Reload | src/contexts/SubscriptionContext.tsx:80-99 | a reload restores the stored record; when storage was up to date it restores the same state |
| Subscription.SubscriptionStore.Subscribe | src/contexts/SubscriptionContext.tsx:101-120 | the record becomes the subscribed record and is persisted |
| Subscription.SubscriptionStore.CancelSubscription | src/contexts/SubscriptionContext.tsx:122-138 | the record becomes the no-subscription record and is persisted |
| Subscription.SubscriptionStore.UpdateUsage | src/contexts/SubscriptionContext.tsx:140-144 | the record becomes the old one merged with the patch, and is persisted |
| Auth.MergeUser | src/contexts/AuthContext.tsx:96 | `{ ...user, ...updates }`: each field of the patch that is present replaces the user's; MergeStoriesCount and MergeUserLaws state its laws |
| Auth.MergeStoriesCount | src/contexts/AuthContext.tsx:96 | a patch that sets the stories count changes only that field |
| Auth.MergeUserLaws | src/contexts/AuthContext.tsx:96 | merging an empty patch changes nothing; merging a patch twice is merging it once |
| Auth.NameFromEmail | src/contexts/AuthContext.tsx:55 | the name is the prefix of the address before its first `@`, and holds no `@` |
| Auth.NameIsWholeEmailIff | src/contexts/AuthContext.tsx:55 | the name is the whole address exactly when the address has no `@` |
| Auth.MockUser | src/contexts/AuthContext.tsx:52-61 | the new user has id "1", the given address and name, no avatar, and every amount and counter at 0 |
| Auth.AuthStore.constructor | src/contexts/AuthContext.tsx:35-36 | nobody is signed in and the provider is loading |
| Auth.AuthStore.RestoreSession | src/contexts/AuthContext.tsx:38-45 | a stored user is signed back in, otherwise the user stays; loading ends either way |
| Auth.AuthStore.Login | src/contexts/AuthContext.tsx:47-66 | the user is the mock user named after the address, stored, and loading ends |
| Auth.AuthStore.Register | src/contexts/AuthContext.tsx:68-87 | the user is the mock user with the given name verbatim, stored, and loading ends |
| Auth.AuthStore.Logout | src/contexts/AuthContext.tsx:89-92 | the user and its stored copy are gone |
| Auth.AuthStore.UpdateUser | src/contexts/AuthContext.tsx:94-100 | without a user nothing changes; with one the patch is merged in and stored |
| Access.PlanGate | src/pages/CollectionsPage.tsx:52-82 | a user, then a plan: the collections page shows its controls, and an author can be contacted, exactly when both are there |
| Access.QuotaGate | src/pages/StoriesPage.tsx:106-120 | exactly one verdict per case, in guard order: no user, no plan, no usage left, or granted exactly when less than the quota is used |
| Access.Consume | src/pages/StoriesPage.tsx:135-137 | the update after a granted action counts one more use of its dimension and leaves the other counters, the plan, the cadence and the expiry alone |
| Access.ConsumeSpendsOne | src/pages/StoriesPage.tsx:135-137 | a granted action lowers that dimension's remaining usage by one and no other's |
| Access.Attempt | src/pages/StoryDetailPage.tsx:63-82 | one gated attempt keeps the plan, and raises the counter by one exactly when the gate grants it |
| Access.AttemptsCount | src/pages/StoryDetailPage.tsx:63-82 | after `n` gated attempts on a fresh plan the counter is `min(n, quota)` |
| Access.GatedAttemptsStopAtQuota | src/pages/StoryDetailPage.tsx:63-82 | after `n` attempts the quota is spent one by one; every later attempt is refused and records nothing |
| Stories.TagOccurrences | src/pages/StoriesPage.tsx:84 | `flatMap` collects exactly the tags some story carries |
| Stories.AllTags | src/pages/StoriesPage.tsx:84 | `allTags` holds every tag some story carries, each once |
| Stories.MatchesQuery | src/pages/StoriesPage.tsx:87-91 | the search: the lower-cased query occurs in the lower-cased title, excerpt or one of the tags; EmptyQueryMatchesAll and FilteredStoriesContents state what it lets through |
| Stories.HasSelectedTag | src/pages/StoriesPage.tsx:92 | the tag filter: no tag selected, or the story carries it; FilteredStoriesContents states what it lets through |
| Stories.SortOrderOf | src/pages/StoriesPage.tsx:93-103 | "likes" and "views" pick their key, anything else sorts by date; SortDesc states the order |
| Stories.SortKey | src/pages/StoriesPage.tsx:93-103 | the value the comparator compares under each order; SortDesc states the order |
| Stories.EmptyQueryMatchesAll | src/pages/StoriesPage.tsx:87-91 | the empty query lets every story through the search |
| Stories.ConsSorted | src/pages/StoriesPage.tsx:93-103 | a story whose key is not below a sorted list's head can be put in front |
| Stories.InsertDesc | src/pages/StoriesPage.tsx:93-103 | inserting keeps the list in non-increasing key order and adds exactly that story |
| Stories.SortDesc | src/pages/StoriesPage.tsx:93-103 | the sort gives the same stories (a permutation) in non-increasing key order |
| Stories.FilteredStories | src/pages/StoriesPage.tsx:86-103 | the visible list is ordered by the chosen key |
| Stories.FilteredStoriesContents | src/pages/StoriesPage.tsx:86-103 | the visible list holds each story passing search and tag filter as often as in the feed, and no other; no query and no tag show the whole feed |
| Stories.LikeToggled | src/pages/StoriesPage.tsx:123-129 | the flag flips, the likes of everybody else (the count less one's own like) stay, and no other field changes |
| Stories.ToggleLike | src/pages/StoriesPage.tsx:122-132 | the stories with that id flip their like and move their count by one accordingly; the others are unchanged |
| Stories.ToggleLikeTwice | src/pages/StoriesPage.tsx:122-132 | toggling a like twice gives the feed back |
| Stories.StoriesPage.constructor | src/pages/StoriesPage.tsx:76-79 | no query, no tag, sorted by "recent" |
| Stories.StoriesPage.HandleLike | src/pages/StoriesPage.tsx:105-140 | refused in guard order without touching stories or usage; granted, the like toggles and exactly one like is recorded |
| Stories.StoriesPage.HandleView | src/pages/StoriesPage.tsx:142-155 | refused in guard order with nothing changed; granted, exactly one view is recorded |
| CreateStory.CanSubmit | src/pages/CreateStoryPage.tsx:75-82 | submitting needs a trimmed title of 10 and text of 100 characters, two tags and every criterion; so the typed fields are at least that long |
| CreateStory.BlankFieldBlocksSubmit | src/pages/CreateStoryPage.tsx:75-82 | a whitespace-only title or text can never be submitted |
| CreateStory.FreshCriteriaBlockSubmit | src/pages/CreateStoryPage.tsx:34 | with the six criteria all unticked, as the form starts, nothing can be submitted whatever is typed |
| CreateStory.Without | src/pages/CreateStoryPage.tsx:55 | removing a tag drops it and keeps every other tag |
| CreateStory.ToggleTag | src/pages/CreateStoryPage.tsx:52-58 | the tag is selected afterwards exactly when it was not before; others stay; a new tag goes at the end |
| CreateStory.ToggleTagTwice | src/pages/CreateStoryPage.tsx:52-58 | selecting an absent tag and deselecting it restores the list, order included |
| CreateStory.ToggleTagKeepsNoDup | src/pages/CreateStoryPage.tsx:52-58 | toggling keeps the selection duplicate-free |
| CreateStory.CreateStoryForm.constructor | src/pages/CreateStoryPage.tsx:30-35 | an empty form with six unticked criteria |
| CreateStory.CreateStoryForm.HandleTagToggle | src/pages/CreateStoryPage.tsx:52-58 | the selection becomes the toggled one and stays duplicate-free |
| CreateStory.CreateStoryForm.HandleAddCustomTag | src/pages/CreateStoryPage.tsx:60-65 | a non-empty trimmed tag not yet selected is appended and the input cleared; otherwise nothing changes; the selection stays duplicate-free |
| CreateStory.CreateStoryForm.HandleCriteriaChange | src/pages/CreateStoryPage.tsx:67-73 | only that checkbox changes |
| CreateStory.CreateStoryForm.HandleSubmit | src/pages/CreateStoryPage.tsx:84-110 | without a user or with the form incomplete nothing changes; otherwise the author's story count goes up by one and is stored |
| UserCollections.CreateGate | src/pages/CollectionsPage.tsx:88-97 | one verdict per case, in guard order: user, plan, non-blank input, something left |
| UserCollections.CreateGateTrims | src/pages/CollectionsPage.tsx:89-97 | the gate is the handler's guard sequence with `trim()` and `getRemainingUsage` as written |
| UserCollections.AiTitle | src/pages/CollectionsPage.tsx:136 | the AI title starts with its prefix and is at most 33 characters longer |
| UserCollections.AiTitleQuotesPrompt | src/pages/CollectionsPage.tsx:136 | the AI title is the prefix, the first 30 characters of the prompt, and "..." |
| UserCollections.DownloadGate | src/pages/CollectionsPage.tsx:154-162 | download is granted exactly on premium and refused as not included on basic |
| UserCollections.PageGuardsComeFirst | src/pages/CollectionsPage.tsx:52-82 | when the page is not shown, every collection action is refused for the page's reason |
| UserCollections.DeleteById | src/pages/CollectionsPage.tsx:165 | the kept collections are exactly those with another id |
| UserCollections.DeleteKeepsOrder | src/pages/CollectionsPage.tsx:164-167 | deleting keeps the rest in order, and deleting an absent id changes nothing |
| UserCollections.CollectionsPage.constructor | src/pages/CollectionsPage.tsx:42-47 | the given list, dialogs closed, inputs empty |
| UserCollections.CollectionsPage.HandleCreateCollection | src/pages/CollectionsPage.tsx:88-117 | refused: nothing changes; granted: one empty collection goes to the front, one collection is recorded, the dialog closes and clears |
| UserCollections.CollectionsPage.HandleCreateAiCollection | src/pages/CollectionsPage.tsx:119-152 | refused: nothing changes; granted: one AI collection with the quoted title and 5 to 19 stories goes to the front, one AI collection is recorded, the dialog closes and clears |
| UserCollections.CollectionsPage.HandleDelete | src/pages/CollectionsPage.tsx:164-167 | on the shown page exactly the collections with that id go, the rest stay in order |
| StoryDetail.HandleLike | src/pages/StoryDetailPage.tsx:62-85 | refused in guard order with no usage recorded; granted, exactly one like is recorded |
| StoryDetail.ContactIgnoresUsage | src/pages/StoryDetailPage.tsx:87-100 | contacting an author is the plan gate alone: a subscriber is let through whatever the usage counters say, even with a quota spent |
| StoryDetail.CanViewProfile | src/pages/StoryDetailPage.tsx:102 | the profile link is shown exactly on premium |
| Text.StartsWith | src/pages/StoryDetailPage.tsx:152 | `startsWith`: the prefix is a prefix of the line, so the empty prefix always matches; RenderLine and HeadingRoundTrip are stated with it |
| Text.EndsWith | src/pages/StoryDetailPage.tsx:152 | `endsWith`: the suffix is the line's last characters, never longer than the line; RenderLine and HeadingRoundTrip are stated with it |
| StoryDetail.RenderLine | src/pages/StoryDetailPage.tsx:152-166 | a line is a heading exactly when wrapped in `**`, a break exactly when otherwise whitespace only, and a paragraph shows the line verbatim |
| StoryDetail.HeadingRoundTrip | src/pages/StoryDetailPage.tsx:152-157 | putting the markers back around a heading's text gives the line; "**" and "***" give an empty heading |
| StoryDetail.PlainLineShown | src/pages/StoryDetailPage.tsx:162-166 | a line neither wrapped nor blank is a paragraph of itself |
| StoryDetail.RenderLines | src/pages/StoryDetailPage.tsx:151-167 | the `map` gives one block per line, in order |
| StoryDetail.RenderLinesConcat | src/pages/StoryDetailPage.tsx:151-167 | the lines are rendered one by one: rendering a concatenation is concatenating the renderings |
| StoryDetail.RenderContent | src/pages/StoryDetailPage.tsx:151-167 | one block per line, so one more block than line breaks, each the rendering of its line |
| StoryDetail.ShownTexts | src/pages/StoryDetailPage.tsx:151-167 | one shown text per block, in order |
| StoryDetail.ShownTextsConcat | src/pages/StoryDetailPage.tsx:151-167 | the shown texts of a concatenation of blocks are the concatenation of their shown texts |
| StoryDetail.PlainLinesShown | src/pages/StoryDetailPage.tsx:162-166 | plain lines are shown one for one |
| StoryDetail.PlainStoryShownInFull | src/pages/StoryDetailPage.tsx:151-167 | a story of plain lines is shown in full: the shown texts joined by line breaks are the story |
| Pricing.GetPrice | src/pages/PricingPage.tsx:30-32 | every catalog price is positive, and a catalog year costs eight months |
| Pricing.GetSavings | src/pages/PricingPage.tsx:34-37 | no saving monthly; yearly, the yearly price plus the saving is twelve monthly payments |
| Pricing.CatalogSavings | src/pages/PricingPage.tsx:34-37 | a catalog year costs eight months, so the saving is four months: 120 and 1200, both positive |
| Pricing.HandleSubscribe | src/pages/PricingPage.tsx:16-28 | without a user the store is untouched; otherwise the plan is taken with the chosen cadence and stored |
| Pricing.SubscribeDisabled | src/pages/PricingPage.tsx:171 | a plan's button is disabled when it is the plan held; DisabledButtons states which buttons that leaves enabled |
| Pricing.DisabledButtons | src/pages/PricingPage.tsx:171 | exactly the held plan's button is disabled, at most one, none without a plan |
| Chat.InitialSelection | src/pages/ChatPage.tsx:80 | the first dialogue's id, unless there is none or its id is empty |
| Chat.IsSet | src/pages/ChatPage.tsx:101 | the truthiness of a selected id: present and not empty; InitialSelection and HandleSendMessage are stated with it |
| Chat.FindChat | src/pages/ChatPage.tsx:98 | a found dialogue has the selected id; nothing is found exactly when no dialogue has it |
| Chat.FindChatFirst | src/pages/ChatPage.tsx:98 | the found dialogue is the first with the selected id |
| Chat.InitialSelectionFindsFirst | src/pages/ChatPage.tsx:80-98 | with the initial selection the selected dialogue is the first one |
| Chat.ChatPage.constructor | src/pages/ChatPage.tsx:80-82 | the given dialogues and messages, the initial selection, an empty input |
| Chat.ChatPage.SelectChat | src/pages/ChatPage.tsx:150 | clicking a dialogue selects it and changes nothing else |
| Chat.ChatPage.HandleSendMessage | src/pages/ChatPage.tsx:100-112 | sent exactly with a user, a non-blank input and a selection; then the untrimmed text is appended as the user's message and the input cleared; otherwise nothing changes |

## Left out

- Rendering, styling, toasts, dialogs' markup, routing and navigation are not modelled. A refusal is a verdict; the pages `App.tsx`, `Header.tsx`, `Footer.tsx`, `HomePage.tsx`, `AuthPage.tsx` and `WalletConnectionModal.tsx` are not part of this model.
- The `setTimeout`/`await` delays in `subscribe`, `cancelSubscription`, `login`, `register`, the story submit and the AI collection are not modelled. Each completion is one atomic step. The stale `userSubscription` captured across the AI collection's 3-second timer is an async artefact, and is not modelled either.
- `localStorage` and JSON are the `saved` field of each store. A corrupt stored value, or one that fails to parse, is not modelled. A failing `setItem` (storage full or disabled) is not modelled either: every storage write is assumed to succeed.
- `Date.now()` ids, timestamps and `Math.floor(Math.random() * 15)` are parameters (`id`, `now`, `draw`). `toLocaleDateString` and the other locale formatting are not modelled.
- Subscription.Subscribed: the expiry is `MonthsAfter(now, 12 or 1)`, an abstract month offset, because calendar arithmetic over `Date` is not modelled.
- Text.Lower: case folding covers the capitals of ASCII, of Latin-1 (U+00C0 to U+00DE) and of Cyrillic U+0400 to U+042F only. Every other capital that `toLowerCase` folds is left as it is: the rest of Latin, Greek, Cyrillic U+0460 to U+04FF (such as Ґ and Ѣ) and the rest. Folds that change the length, such as İ to two code units, are not modelled either.
- Text.Trim, Text.Slice, CreateStory.CanSubmit, UserCollections.AiTitle: strings are sequences of characters, not UTF-16 code units, so a character outside the Basic Multilingual Plane counts once rather than twice. A title of five emoji reaches the length 10 in the source's `trim().length` but not in the model's, and the model's `slice(0, 30)` never splits a surrogate pair as the source's can.
- Stories.SortDesc: the relative order of stories with equal keys is not stated, because `Array.prototype.sort`'s stability is not relied on by the page.
- `ProfilePage.tsx` computes earnings and percentages in floating point for display only, and is not part of this model.
- The password arguments of `login` and `register` are accepted and ignored, as in the source.
- Pricing.HandleSubscribe: with storage writes assumed to succeed, `subscribe` does not throw, so the handler's error branch is not modelled. In the source a failing `setItem` throws after the state has already changed, and the handler's `catch` runs.
- The pages' own `if (!user)` returns are modelled by passing the hook's current user as an `Option` parameter to each handler. The create-story page's guard becomes `HandleSubmit`'s `NeedLogin` verdict.
- CreateStory.CreateStoryForm.HandleCriteriaChange: the index is required to be one of the six rendered checkboxes, as the page only ever passes those.
- A story's `isLiked` is a plain boolean; an absent `isLiked` is read as `false`.
- The "$1.50" in the contact-author success toast is text only: the source charges nothing, and the model records nothing.
- The suggested-tag list and the criteria texts shown on the form are display data. Only the number of criteria (six) takes part in the rules.
