/** The drawer that adds a candidate to a requisition: the draft it edits,
    its tag list editor, and the record it hands over on save. */
module CandidateForm {
  import opened Common
  import opened Model

  /** The form's fields: everything a stored candidate has except the fields
      filled in on save. */
  datatype CandidateDraft = CandidateDraft(
    firstName: string,
    lastName: string,
    email: string,
    profile: Profile,
    currentStage: string,
    priority: string,
    experienceYears: int,
    tags: seq<string>)

  const BlankProfile := Profile("", "", "Company Website", "", "", "", "", "", "", "", "")

  /** The starting draft, used again to reset the form after a save: empty
      texts, the `applied` stage, `medium` priority, the company web site as
      source, no experience and one empty tag input. */
  const InitialDraft := CandidateDraft("", "", "", BlankProfile, "applied", "medium", 0, [""])

  /** `isFormValid`: first name, last name and e-mail are non-empty (not
      trimmed); the save button is disabled otherwise. */
  predicate IsFormValid(d: CandidateDraft): (ok: bool)
    ensures !ok <==> d.firstName == [] || d.lastName == [] || d.email == []
  {
    d.firstName != [] && d.lastName != [] && d.email != []
  }

  /** The initial draft cannot be saved. */
  lemma InitialDraftInvalid()
    ensures !IsFormValid(InitialDraft)
    ensures |InitialDraft.tags| == 1
  {
  }

  /** The fields `handleInputChange` sets by name. */
  datatype DraftField =
    | FirstName | LastName | EmailField | StageField | PriorityField
    | ProfileText(field: ProfileField)

  function WithDraftField(d: CandidateDraft, field: DraftField, value: string): (r: CandidateDraft)
    ensures r.experienceYears == d.experienceYears && r.tags == d.tags
    ensures field.ProfileText? ==> r == d.(profile := WithProfileField(d.profile, field.field, value))
    ensures !field.ProfileText? ==> r.profile == d.profile
    ensures field == FirstName ==> r == d.(firstName := value)
    ensures field == LastName ==> r == d.(lastName := value)
    ensures field == EmailField ==> r == d.(email := value)
    ensures field == StageField ==> r == d.(currentStage := value)
    ensures field == PriorityField ==> r == d.(priority := value)
  {
    match field
    case FirstName => d.(firstName := value)
    case LastName => d.(lastName := value)
    case EmailField => d.(email := value)
    case StageField => d.(currentStage := value)
    case PriorityField => d.(priority := value)
    case ProfileText(f) => d.(profile := WithProfileField(d.profile, f, value))
  }

  /** The remove button is shown only while more than one tag input exists. */
  predicate CanRemoveTag(tags: seq<string>)
  {
    |tags| > 1
  }

  /** Removing through a shown button keeps at least one tag input. */
  lemma RemoveTagKeepsOneInput(tags: seq<string>, index: int)
    requires CanRemoveTag(tags) && 0 <= index < |tags|
    ensures |RemoveAt(tags, index)| >= 1
  {
  }

  /** The new record's id, built from the millisecond clock. */
  function CandidateId(millis: nat): (id: string)
    ensures |id| > 5 && id[..5] == "cand-"
  {
    "cand-" + NatToDecimal(millis)
  }

  /** The record `handleSave` hands to `onSave`: the draft's fields, an id
      from the clock, the requisition's id, the date part of the timestamp
      as applied date, the non-blank tags, no interviews, and the timestamp
      as both creation and update time. */
  function NewCandidate(d: CandidateDraft, requisitionId: string, millis: nat, now: string): (c: Candidate)
    ensures c.id == CandidateId(millis) && c.requisitionId == requisitionId
    ensures c.firstName == d.firstName && c.lastName == d.lastName && c.email == d.email
    ensures c.profile == d.profile && c.currentStage == d.currentStage && c.priority == d.priority
    ensures c.experienceYears == d.experienceYears
    ensures c.appliedDate == DatePart(now)
    ensures c.tags == FilterNonBlank(d.tags)
    ensures c.interviews == [] && c.createdAt == now && c.updatedAt == now
  {
    Candidate(
      id := CandidateId(millis),
      requisitionId := requisitionId,
      firstName := d.firstName,
      lastName := d.lastName,
      email := d.email,
      profile := d.profile,
      currentStage := d.currentStage,
      priority := d.priority,
      experienceYears := d.experienceYears,
      appliedDate := DatePart(now),
      tags := FilterNonBlank(d.tags),
      interviews := [],
      createdAt := now,
      updatedAt := now)
  }

  /** The new record keeps every non-blank tag of the draft, in order, and no
      blank one; the record is untagged exactly when every tag input is blank. */
  lemma NewCandidateTags(d: CandidateDraft, requisitionId: string, millis: nat, now: string)
    ensures IsSubsequence(NewCandidate(d, requisitionId, millis, now).tags, d.tags)
    ensures forall t :: t in NewCandidate(d, requisitionId, millis, now).tags <==> t in d.tags && !IsBlank(t)
    ensures forall t :: multiset(NewCandidate(d, requisitionId, millis, now).tags)[t] ==
                        if IsBlank(t) then 0 else multiset(d.tags)[t]
    ensures NewCandidate(d, requisitionId, millis, now).tags == [] <==> forall i :: 0 <= i < |d.tags| ==> IsBlank(d.tags[i])
  {
    FilterNonBlankEmpty(d.tags);
  }

  class AddCandidateForm {
    var formData: CandidateDraft

    constructor()
      ensures formData == InitialDraft
    {
      formData := InitialDraft;
    }

    method HandleInputChange(field: DraftField, value: string)
      modifies this
      ensures formData == WithDraftField(old(formData), field, value)
    {
      formData := WithDraftField(formData, field, value);
    }

    /** The experience input: `parseInt(text) || 0`. */
    method HandleExperienceChange(text: string)
      modifies this
      ensures formData == old(formData).(experienceYears := ExperienceFromInput(text))
    {
      formData := formData.(experienceYears := ExperienceFromInput(text));
    }

    /** `handleTagChange`: a copy of the tags with one slot overwritten in place. */
    method HandleTagChange(index: int, value: string)
      requires 0 <= index < |formData.tags|
      modifies this
      ensures formData == old(formData).(tags := old(formData.tags)[index := value])
    {
      var newTags := SetSlot(formData.tags, index, value);
      assert newTags == formData.tags[index := value];
      formData := formData.(tags := newTags);
    }

    method AddTag()
      modifies this
      ensures formData == old(formData).(tags := old(formData.tags) + [""])
    {
      formData := formData.(tags := formData.tags + [""]);
    }

    /** `removeTag`: every tag input but the one at `index`. */
    method RemoveTag(index: int)
      modifies this
      ensures formData == old(formData).(tags := RemoveAt(old(formData.tags), index))
    {
      formData := formData.(tags := RemoveAt(formData.tags, index));
    }

    /** `handleSave`: hands over the new record and resets the form. `millis`
        and `now` stand for `Date.now()` and the ISO timestamp. */
    method HandleSave(requisition: Requisition, millis: nat, now: string) returns (saved: Candidate)
      modifies this
      ensures saved == NewCandidate(old(formData), requisition.id, millis, now)
      ensures formData == InitialDraft
    {
      saved := NewCandidate(formData, requisition.id, millis, now);
      formData := InitialDraft;
    }
  }
}
