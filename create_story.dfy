/** The story submission form: tag selection, the six confirmation checkboxes,
    the submit condition, and the submit handler that counts the new story on the
    author's profile. */
module CreateStory {
  import opened Wrappers
  import opened Text
  import opened Seqs
  import opened Access
  import Auth

  /** The confirmations an author must tick before submitting. */
  const StoryCriteria: seq<string> := [
    "История описывает реальную проблему или потребность",
    "Указаны конкретные детали (бюджет, временные рамки, требования)",
    "Описаны попытки решения проблемы и их результаты",
    "История может быть полезна предпринимателям для поиска ниш",
    "Отсутствует реклама конкретных продуктов или услуг",
    "Соблюдены правила приличия и этики"
  ]

  /** `canSubmit()`: a title of at least 10 and a text of at least 100 characters once
      trimmed, at least two tags, and every criterion ticked. So the fields as typed are
      at least that long too. */
  predicate CanSubmit(title: string, content: string, selectedTags: seq<string>, checkedCriteria: seq<bool>)
    ensures CanSubmit(title, content, selectedTags, checkedCriteria) ==> |title| >= 10 && |content| >= 100
  {
    |Trim(title)| >= 10 &&
    |Trim(content)| >= 100 &&
    |selectedTags| >= 2 &&
    forall i :: 0 <= i < |checkedCriteria| ==> checkedCriteria[i]
  }

  /** A blank title or a blank text (whitespace only) can never be submitted. */
  lemma BlankFieldBlocksSubmit(title: string, content: string, selectedTags: seq<string>, checkedCriteria: seq<bool>)
    requires AllWhitespace(title) || AllWhitespace(content)
    ensures !CanSubmit(title, content, selectedTags, checkedCriteria)
  {
    TrimEmptyIff(title);
    TrimEmptyIff(content);
  }

  /** A fresh form, with its six criteria all unticked, cannot be submitted whatever is typed. */
  lemma FreshCriteriaBlockSubmit(title: string, content: string, selectedTags: seq<string>, checkedCriteria: seq<bool>)
    requires |checkedCriteria| == |StoryCriteria|
    requires forall i :: 0 <= i < |checkedCriteria| ==> !checkedCriteria[i]
    ensures !CanSubmit(title, content, selectedTags, checkedCriteria)
  {
    assert !checkedCriteria[0];
  }

  /** `prev.filter(t => t !== tag)`. */
  function Without(tags: seq<string>, tag: string): (r: seq<string>)
    ensures tag !in r
    ensures forall x :: x != tag ==> (x in r <==> x in tags)
  {
    Filter(tags, x => x != tag)
  }

  /** `handleTagToggle(tag)`: removes the tag if it is selected, otherwise appends it. */
  function ToggleTag(tags: seq<string>, tag: string): (r: seq<string>)
    ensures tag in r <==> tag !in tags
    ensures forall x :: x != tag ==> (x in r <==> x in tags)
    ensures tag !in tags ==> r == tags + [tag]
  {
    if tag in tags then Without(tags, tag) else tags + [tag]
  }

  /** Selecting a tag and then deselecting it gives back the original selection, order included. */
  lemma {:induction false} ToggleTagTwice(tags: seq<string>, tag: string)
    requires tag !in tags
    ensures ToggleTag(ToggleTag(tags, tag), tag) == tags
  {
    assert tag in tags + [tag];
    FilterConcat(tags, [tag], x => x != tag);
    FilterAllPass(tags, x => x != tag);
    assert Filter([tag], x => x != tag) == [];
  }

  /** Toggling keeps the selection free of duplicates. */
  lemma {:induction false} ToggleTagKeepsNoDup(tags: seq<string>, tag: string)
    requires NoDup(tags)
    ensures NoDup(ToggleTag(tags, tag))
  {
    if tag in tags {
      FilterNoDup(tags, x => x != tag);
    }
  }

  /** The form state. */
  class CreateStoryForm {
    var title: string
    var content: string
    var selectedTags: seq<string>
    var customTag: string
    var checkedCriteria: seq<bool>
    var isSubmitting: bool

    /** Tags are never selected twice, and there is one checkbox per criterion. */
    predicate Valid()
      reads this
    {
      NoDup(selectedTags) && |checkedCriteria| == |StoryCriteria|
    }

    /** An empty form: nothing typed, no tags, no criterion ticked (so, by
        FreshCriteriaBlockSubmit, nothing to submit). */
    constructor ()
      ensures Valid()
      ensures title == [] && content == [] && selectedTags == [] && customTag == [] && !isSubmitting
      ensures checkedCriteria == seq(|StoryCriteria|, _ => false)
    {
      title, content, selectedTags, customTag := [], [], [], [];
      checkedCriteria := seq(|StoryCriteria|, _ => false);
      isSubmitting := false;
    }

    method HandleTagToggle(tag: string)
      requires Valid()
      modifies this
      ensures Valid()
      ensures selectedTags == ToggleTag(old(selectedTags), tag)
      ensures title == old(title) && content == old(content) && customTag == old(customTag)
      ensures checkedCriteria == old(checkedCriteria) && isSubmitting == old(isSubmitting)
    {
      ToggleTagKeepsNoDup(selectedTags, tag);
      selectedTags := ToggleTag(selectedTags, tag);
    }

    /** `handleAddCustomTag()`: appends the trimmed input and clears it, unless the trimmed
        input is empty or already selected, in which case nothing changes. */
    method HandleAddCustomTag()
      requires Valid()
      modifies this
      ensures Valid()
      ensures var t := Trim(old(customTag));
        if t != [] && t !in old(selectedTags)
        then selectedTags == old(selectedTags) + [t] && customTag == []
        else selectedTags == old(selectedTags) && customTag == old(customTag)
      ensures title == old(title) && content == old(content)
      ensures checkedCriteria == old(checkedCriteria) && isSubmitting == old(isSubmitting)
    {
      var tags, t := selectedTags, Trim(customTag);
      if t != [] && t !in tags {
        AppendNoDup(tags, t);
        selectedTags, customTag := tags + [t], [];
        assert Valid();
      }
    }

    /** `handleCriteriaChange(index, checked)`: sets that one checkbox. The index is always
        one of the rendered checkboxes. */
    method HandleCriteriaChange(index: nat, checked: bool)
      requires Valid()
      requires index < |checkedCriteria|
      modifies this
      ensures Valid()
      ensures checkedCriteria == old(checkedCriteria)[index := checked]
      ensures title == old(title) && content == old(content) && selectedTags == old(selectedTags)
      ensures customTag == old(customTag) && isSubmitting == old(isSubmitting)
    {
      checkedCriteria := checkedCriteria[index := checked];
    }

    /** `handleSubmit()`: without a user the form is not shown; an incomplete form is refused
        and nothing changes; otherwise the author's story count goes up by one. */
    method HandleSubmit(auth: Auth.AuthStore) returns (v: Verdict)
      requires Valid()
      modifies this, auth
      ensures v == (if old(auth.user).None? then NeedLogin
                    else if !CanSubmit(title, content, selectedTags, checkedCriteria) then MissingInput
                    else Granted)
      ensures v == Granted ==>
        var u := old(auth.user).value;
        auth.user == Some(u.(storiesCount := u.storiesCount + 1)) && auth.Persisted()
      ensures v != Granted ==> auth.user == old(auth.user) && auth.saved == old(auth.saved)
      ensures auth.isLoading == old(auth.isLoading)
      ensures Valid()
      ensures v == Granted ==> !isSubmitting
      ensures v != Granted ==> isSubmitting == old(isSubmitting)
      ensures title == old(title) && content == old(content) && selectedTags == old(selectedTags)
      ensures customTag == old(customTag) && checkedCriteria == old(checkedCriteria)
    {
      if auth.user.None? {
        return NeedLogin;
      }
      if !CanSubmit(title, content, selectedTags, checkedCriteria) {
        return MissingInput;
      }
      var u := auth.user.value;
      var patch := Auth.EmptyUserPatch.(storiesCount := Some(u.storiesCount + 1));
      Auth.MergeStoriesCount(u, u.storiesCount + 1);
      isSubmitting := true;
      auth.UpdateUser(patch);
      assert auth.user == Some(Auth.MergeUser(u, patch));
      isSubmitting := false;
      v := Granted;
    }
  }
}
