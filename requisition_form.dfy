/** The drawer that creates a requisition: the draft it edits, the
    requirement list editor, the role-dependent hiring stages, and the record
    it hands over on save. */
module RequisitionForm {
  import opened Common
  import opened Model

  /** The form's fields: everything a stored requisition has except the id and
      the creation date, which are filled in on save. */
  datatype RequisitionDraft = RequisitionDraft(
    title: string,
    department: string,
    location: string,
    employmentType: string,
    status: string,
    priority: string,
    hiringManager: string,
    recruiter: string,
    targetStartDate: string,
    description: string,
    requirements: seq<string>,
    salaryRange: string,
    positionsToFill: int,
    roleType: string,
    hiringStages: seq<Stage>)

  /** The starting draft for a default role: empty texts, a full-time draft
      of medium priority, one empty requirement input, one position, and the
      default role's stages. */
  function InitialDraft(stagesForRole: string -> seq<Stage>, defaultRole: string): (d: RequisitionDraft)
    ensures d.status == "draft" && d.positionsToFill == 1 && d.requirements == [""]
    ensures d.roleType == defaultRole && d.hiringStages == stagesForRole(defaultRole)
    ensures d.title == [] && d.department == [] && d.hiringManager == []
  {
    RequisitionDraft("", "", "", "Full-time", "draft", "medium", "", "", "", "", [""], "", 1,
                     defaultRole, stagesForRole(defaultRole))
  }

  /** `isFormValid`: title, department and hiring manager are non-empty (not
      trimmed); the save button is disabled otherwise. */
  predicate IsFormValid(d: RequisitionDraft): (ok: bool)
    ensures !ok <==> d.title == [] || d.department == [] || d.hiringManager == []
  {
    d.title != [] && d.department != [] && d.hiringManager != []
  }

  lemma InitialDraftInvalid(stagesForRole: string -> seq<Stage>, defaultRole: string)
    ensures !IsFormValid(InitialDraft(stagesForRole, defaultRole))
  {
  }

  /** The text fields `handleInputChange` sets by name. */
  datatype RequisitionField =
    | Title | Department | LocationField | EmploymentType | PriorityField
    | HiringManager | Recruiter | TargetStartDate | SalaryRange | Description | RoleType

  /** `handleInputChange`'s new draft: the named field takes the value; a new
      role also replaces the hiring stages with that role's stages. */
  function WithField(d: RequisitionDraft, field: RequisitionField, value: string,
                     stagesForRole: string -> seq<Stage>): (r: RequisitionDraft)
    ensures r.requirements == d.requirements && r.positionsToFill == d.positionsToFill && r.status == d.status
    ensures field == RoleType ==> r == d.(roleType := value, hiringStages := stagesForRole(value))
    ensures field != RoleType ==> r.roleType == d.roleType && r.hiringStages == d.hiringStages
    ensures field == Title ==> r == d.(title := value)
    ensures field == Department ==> r == d.(department := value)
    ensures field == LocationField ==> r == d.(location := value)
    ensures field == EmploymentType ==> r == d.(employmentType := value)
    ensures field == PriorityField ==> r == d.(priority := value)
    ensures field == HiringManager ==> r == d.(hiringManager := value)
    ensures field == Recruiter ==> r == d.(recruiter := value)
    ensures field == TargetStartDate ==> r == d.(targetStartDate := value)
    ensures field == SalaryRange ==> r == d.(salaryRange := value)
    ensures field == Description ==> r == d.(description := value)
  {
    match field
    case Title => d.(title := value)
    case Department => d.(department := value)
    case LocationField => d.(location := value)
    case EmploymentType => d.(employmentType := value)
    case PriorityField => d.(priority := value)
    case HiringManager => d.(hiringManager := value)
    case Recruiter => d.(recruiter := value)
    case TargetStartDate => d.(targetStartDate := value)
    case SalaryRange => d.(salaryRange := value)
    case Description => d.(description := value)
    case RoleType => d.(roleType := value, hiringStages := stagesForRole(value))
  }

  /** The stages always follow the role: a draft whose stages are its role's
      stages keeps that after any field change. */
  lemma WithFieldKeepsStagesForRole(d: RequisitionDraft, field: RequisitionField, value: string,
                                    stagesForRole: string -> seq<Stage>)
    requires d.hiringStages == stagesForRole(d.roleType)
    ensures WithField(d, field, value, stagesForRole).hiringStages ==
            stagesForRole(WithField(d, field, value, stagesForRole).roleType)
  {
  }

  /** The positions input's `parseInt(text) || 1`: `NaN` and `0` both fall
      back to one position. */
  function PositionsFromInput(text: string): (n: int)
    ensures n != 0
    ensures ParseInt(text).None? || ParseInt(text) == Some(0) ==> n == 1
    ensures ParseInt(text).Some? && ParseInt(text) != Some(0) ==> n == ParseInt(text).value
  {
    match ParseInt(text)
    case None => 1
    case Some(v) => if v == 0 then 1 else v
  }

  /** Typing a positive count reads it back; a blank input or `0` reads as
      one position. */
  lemma PositionsInputRoundTrip(n: nat, blank: string)
    requires IsBlank(blank)
    ensures n >= 1 ==> PositionsFromInput(NatToDecimal(n)) == n
    ensures PositionsFromInput(NatToDecimal(0)) == 1
    ensures PositionsFromInput(blank) == 1
  {
    ParseIntRoundTrip(n);
    ParseIntRoundTrip(0);
    ParseIntOfBlank(blank);
  }

  /** The new record's id, built from the millisecond clock. */
  function RequisitionId(millis: nat): (id: string)
    ensures |id| > 4 && id[..4] == "req-"
  {
    "req-" + NatToDecimal(millis)
  }

  /** The record `handleSave` hands to `onSave`: the draft's fields, an id
      from the clock, the date part of the timestamp as creation date, and
      the requirements that are not blank. */
  function NewRequisition(d: RequisitionDraft, millis: nat, now: string): (r: Requisition)
    ensures r.id == RequisitionId(millis) && r.createdDate == DatePart(now)
    ensures r.requirements == FilterNonBlank(d.requirements)
    ensures r.title == d.title && r.department == d.department && r.location == d.location
    ensures r.employmentType == d.employmentType && r.status == d.status && r.priority == d.priority
    ensures r.hiringManager == d.hiringManager && r.recruiter == d.recruiter
    ensures r.targetStartDate == d.targetStartDate && r.description == d.description
    ensures r.salaryRange == d.salaryRange && r.positionsToFill == d.positionsToFill
    ensures r.roleType == d.roleType && r.hiringStages == d.hiringStages
  {
    Requisition(
      id := RequisitionId(millis),
      title := d.title,
      department := d.department,
      location := d.location,
      employmentType := d.employmentType,
      status := d.status,
      priority := d.priority,
      hiringManager := d.hiringManager,
      recruiter := d.recruiter,
      createdDate := DatePart(now),
      targetStartDate := d.targetStartDate,
      description := d.description,
      requirements := FilterNonBlank(d.requirements),
      salaryRange := d.salaryRange,
      positionsToFill := d.positionsToFill,
      roleType := d.roleType,
      hiringStages := d.hiringStages)
  }

  /** The saved requirements are the non-blank inputs in their order; the
      list is empty exactly when every input is blank. */
  lemma NewRequisitionRequirements(d: RequisitionDraft, millis: nat, now: string)
    ensures IsSubsequence(NewRequisition(d, millis, now).requirements, d.requirements)
    ensures forall x :: x in NewRequisition(d, millis, now).requirements <==> x in d.requirements && !IsBlank(x)
    ensures forall x :: multiset(NewRequisition(d, millis, now).requirements)[x] ==
                        if IsBlank(x) then 0 else multiset(d.requirements)[x]
    ensures NewRequisition(d, millis, now).requirements == [] <==>
            forall i :: 0 <= i < |d.requirements| ==> IsBlank(d.requirements[i])
  {
    FilterNonBlankEmpty(d.requirements);
  }

  class AddRequisitionForm {
    /** `getHiringStagesForRole`, which is not part of this model. */
    const stagesForRole: string -> seq<Stage>
    /** `ROLE_TYPES.ENGINEERING`, the role a new form starts with. */
    const defaultRole: string
    var formData: RequisitionDraft

    /** What every handler keeps: the form has no status input, so the
        draft stays a `draft`; the stages are those of the chosen role; and
        the positions count is never 0. */
    predicate Valid()
      reads this
    {
      formData.status == "draft" &&
      formData.hiringStages == stagesForRole(formData.roleType) &&
      formData.positionsToFill != 0
    }

    constructor(stagesForRole: string -> seq<Stage>, defaultRole: string)
      ensures this.stagesForRole == stagesForRole && this.defaultRole == defaultRole
      ensures formData == InitialDraft(stagesForRole, defaultRole)
      ensures Valid()
    {
      this.stagesForRole := stagesForRole;
      this.defaultRole := defaultRole;
      formData := InitialDraft(stagesForRole, defaultRole);
    }

    method HandleInputChange(field: RequisitionField, value: string)
      requires Valid()
      modifies this
      ensures Valid()
      ensures formData == WithField(old(formData), field, value, stagesForRole)
    {
      formData := WithField(formData, field, value, stagesForRole);
    }

    /** The positions input: `parseInt(text) || 1`. */
    method HandlePositionsChange(text: string)
      requires Valid()
      modifies this
      ensures Valid()
      ensures formData == old(formData).(positionsToFill := PositionsFromInput(text))
    {
      formData := formData.(positionsToFill := PositionsFromInput(text));
    }

    /** `handleRequirementChange`: a copy of the requirements with one slot
        overwritten in place. */
    method HandleRequirementChange(index: int, value: string)
      requires Valid()
      requires 0 <= index < |formData.requirements|
      modifies this
      ensures Valid()
      ensures formData == old(formData).(requirements := old(formData.requirements)[index := value])
    {
      var newRequirements := SetSlot(formData.requirements, index, value);
      assert newRequirements == formData.requirements[index := value];
      formData := formData.(requirements := newRequirements);
    }

    method AddRequirement()
      requires Valid()
      modifies this
      ensures Valid()
      ensures formData == old(formData).(requirements := old(formData.requirements) + [""])
    {
      formData := formData.(requirements := formData.requirements + [""]);
    }

    /** `removeRequirement`: every input but the one at `index`. */
    method RemoveRequirement(index: int)
      requires Valid()
      modifies this
      ensures Valid()
      ensures formData == old(formData).(requirements := RemoveAt(old(formData.requirements), index))
    {
      formData := formData.(requirements := RemoveAt(formData.requirements, index));
    }

    /** `handleSave`: hands over the new record and resets the form. `millis`
        and `now` stand for `Date.now()` and the ISO timestamp. */
    method HandleSave(millis: nat, now: string) returns (saved: Requisition)
      requires Valid()
      modifies this
      ensures Valid()
      ensures saved == NewRequisition(old(formData), millis, now)
      ensures saved.status == "draft" && saved.positionsToFill != 0
      ensures saved.hiringStages == stagesForRole(saved.roleType)
      ensures formData == InitialDraft(stagesForRole, defaultRole)
    {
      saved := NewRequisition(formData, millis, now);
      formData := InitialDraft(stagesForRole, defaultRole);
    }
  }
}
