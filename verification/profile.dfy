/**
 * The profile builder: the onboarding form's validation and the merge of the
 * free-text "Outra" (other) restriction into the selected list.
 */
module Profile {
  import opened Wrappers

  /** The multiselect option that asks for a free-text restriction. */
  const Other: string := "Outra"

  /** The dataclass built once at onboarding. */
  datatype UserProfile = UserProfile(
    name: string,
    dietaryRestrictions: seq<string>,
    additionalNotes: Option<string>)

  /**
   * What the onboarding form submits: the name text box, the multiselect in
   * selection order, the "other" text box (only read when "Outra" is selected)
   * and the notes text area.
   */
  datatype OnboardingForm = OnboardingForm(
    userName: string,
    selected: seq<string>,
    otherRestriction: string,
    additionalNotes: string)

  /** The form lacked a name or a selected restriction. */
  datatype ValidationError = MissingNameOrRestriction

  /** The selection with every "Outra" dropped, the rest in selection order. */
  function WithoutOther(selected: seq<string>): (r: seq<string>)
    ensures |r| <= |selected|
    ensures Other !in r
    ensures forall x :: x in r ==> x in selected
  {
    if |selected| == 0 then []
    else (if selected[0] == Other then [] else [selected[0]]) + WithoutOther(selected[1..])
  }

  /** Filtering distributes over concatenation, so selection order is kept. */
  lemma {:induction false} WithoutOtherAppend(a: seq<string>, b: seq<string>)
    ensures WithoutOther(a + b) == WithoutOther(a) + WithoutOther(b)
    decreases |a|
  {
    if |a| == 0 {
      assert a + b == b;
    } else {
      assert (a + b)[1..] == a[1..] + b;
      WithoutOtherAppend(a[1..], b);
    }
  }

  /** Each restriction other than "Outra" is kept exactly as often as it was selected. */
  lemma {:induction false} WithoutOtherCounts(selected: seq<string>, x: string)
    ensures multiset(WithoutOther(selected))[x] == if x == Other then 0 else multiset(selected)[x]
    decreases |selected|
  {
    if |selected| > 0 {
      WithoutOtherCounts(selected[1..], x);
      assert selected == [selected[0]] + selected[1..];
    }
  }

  /** A selection without "Outra" passes through unchanged. */
  lemma {:induction false} WithoutOtherIdentity(selected: seq<string>)
    requires Other !in selected
    ensures WithoutOther(selected) == selected
    decreases |selected|
  {
    if |selected| > 0 {
      WithoutOtherIdentity(selected[1..]);
    }
  }

  /** The free text is used only when "Outra" was selected and the text is non-empty. */
  predicate UsesOtherText(selected: seq<string>, other: string)
  {
    Other in selected && other != ""
  }

  /**
   * The final restriction list: the selection without "Outra", followed by the
   * free-text restriction when it is used.
   */
  function MergeRestrictions(selected: seq<string>, other: string): (r: seq<string>)
    ensures forall x :: x in r <==>
      (x in selected && x != Other) || (x == other && UsesOtherText(selected, other))
    ensures |r| == |WithoutOther(selected)| + (if UsesOtherText(selected, other) then 1 else 0)
    ensures r[..|WithoutOther(selected)|] == WithoutOther(selected)
    ensures UsesOtherText(selected, other) ==> r[|r| - 1] == other
    ensures "" in r ==> "" in selected
  {
    var kept := WithoutOther(selected);
    WithoutOtherMembers(selected);
    if UsesOtherText(selected, other) then kept + [other] else kept
  }

  /** Membership in the filtered selection, both directions. */
  lemma {:induction false} WithoutOtherMembers(selected: seq<string>)
    ensures forall x :: x in WithoutOther(selected) <==> x in selected && x != Other
    decreases |selected|
  {
    if |selected| > 0 {
      WithoutOtherMembers(selected[1..]);
      assert selected == [selected[0]] + selected[1..];
    }
  }

  /**
   * Validates the onboarding form and builds the profile. An empty name or an
   * empty selection is rejected; otherwise the notes text is kept as given.
   */
  function BuildProfile(form: OnboardingForm): (r: Result<UserProfile, ValidationError>)
    ensures r.Failure? <==> form.userName == "" || form.selected == []
    ensures r.Success? ==> r.value.name == form.userName && r.value.name != ""
    ensures r.Success? ==>
      r.value.dietaryRestrictions == MergeRestrictions(form.selected, form.otherRestriction)
    ensures r.Success? ==> r.value.additionalNotes == Some(form.additionalNotes)
  {
    if form.userName == "" || |form.selected| == 0 then Failure(MissingNameOrRestriction)
    else Success(UserProfile(
      form.userName,
      MergeRestrictions(form.selected, form.otherRestriction),
      Some(form.additionalNotes)))
  }

  /** Selecting only "Outra" with an empty text box yields no restriction at all. */
  lemma OnlyOtherWithEmptyText(form: OnboardingForm)
    requires form.userName != "" && form.selected == [Other] && form.otherRestriction == ""
    ensures BuildProfile(form).Success?
    ensures BuildProfile(form).value.dietaryRestrictions == []
  {
  }
}
