/** The records of the hiring board: requisitions with their ordered hiring
    stages, candidates with their interview history. Field names follow the
    stored records (`current_stage` is `currentStage`, and so on). */
module Model {
  import opened Common

  /** One step of a requisition's pipeline; the position in `hiringStages`
      is the pipeline order. */
  datatype Stage = Stage(id: string, name: string, description: string)

  /** An interview record. `kind` is the record's `type` field: the id of
      the stage the interview belongs to. */
  datatype Interview = Interview(date: string, kind: string, interviewer: string, rating: int, feedback: string)

  /** The free-text candidate fields that no operation of the board inspects;
      an absent optional field is the empty string. */
  datatype Profile = Profile(
    phone: string,
    location: string,
    source: string,
    currentCompany: string,
    currentTitle: string,
    linkedinUrl: string,
    resumeUrl: string,
    portfolioUrl: string,
    salaryExpectation: string,
    noticePeriod: string,
    notes: string)

  /** The profile fields a form edits by name. */
  datatype ProfileField =
    | Phone | Location | Source | CurrentCompany | CurrentTitle | LinkedinUrl
    | ResumeUrl | PortfolioUrl | SalaryExpectation | NoticePeriod | Notes

  /** `profile[field]`. */
  function ProfileValue(p: Profile, field: ProfileField): string
  {
    match field
    case Phone => p.phone
    case Location => p.location
    case Source => p.source
    case CurrentCompany => p.currentCompany
    case CurrentTitle => p.currentTitle
    case LinkedinUrl => p.linkedinUrl
    case ResumeUrl => p.resumeUrl
    case PortfolioUrl => p.portfolioUrl
    case SalaryExpectation => p.salaryExpectation
    case NoticePeriod => p.noticePeriod
    case Notes => p.notes
  }

  /** `{ ...profile, [field]: value }`: the named field reads back the new
      value and every other field keeps its old one. */
  function WithProfileField(p: Profile, field: ProfileField, value: string): (r: Profile)
    ensures ProfileValue(r, field) == value
    ensures forall g :: g != field ==> ProfileValue(r, g) == ProfileValue(p, g)
  {
    match field
    case Phone => p.(phone := value)
    case Location => p.(location := value)
    case Source => p.(source := value)
    case CurrentCompany => p.(currentCompany := value)
    case CurrentTitle => p.(currentTitle := value)
    case LinkedinUrl => p.(linkedinUrl := value)
    case ResumeUrl => p.(resumeUrl := value)
    case PortfolioUrl => p.(portfolioUrl := value)
    case SalaryExpectation => p.(salaryExpectation := value)
    case NoticePeriod => p.(noticePeriod := value)
    case Notes => p.(notes := value)
  }

  /** Writing back the value a field already holds changes nothing. */
  lemma WithProfileFieldOfOwnValue(p: Profile, field: ProfileField)
    ensures WithProfileField(p, field, ProfileValue(p, field)) == p
  {
  }

  /** The experience inputs' `parseInt(text) || 0`: `NaN` and `0` both give 0. */
  function ExperienceFromInput(text: string): (years: int)
    ensures ParseInt(text).None? ==> years == 0
    ensures ParseInt(text).Some? ==> years == ParseInt(text).value
  {
    match ParseInt(text)
    case None => 0
    case Some(v) => v
  }

  /** Typing the decimal numeral of a year count reads that count back; an
      empty or blank input reads as 0. */
  lemma ExperienceInputRoundTrip(n: nat, blank: string)
    requires IsBlank(blank)
    ensures ExperienceFromInput(NatToDecimal(n)) == n
    ensures ExperienceFromInput(blank) == 0
  {
    ParseIntRoundTrip(n);
    ParseIntOfBlank(blank);
  }

  datatype Candidate = Candidate(
    id: string,
    requisitionId: string,
    firstName: string,
    lastName: string,
    email: string,
    profile: Profile,
    currentStage: string,
    priority: string,
    experienceYears: int,
    appliedDate: string,
    tags: seq<string>,
    interviews: seq<Interview>,
    createdAt: string,
    updatedAt: string)

  /** A job requisition. `employmentType` is the record's `type` field;
      `roleType` is empty for records created before the field existed. */
  datatype Requisition = Requisition(
    id: string,
    title: string,
    department: string,
    location: string,
    employmentType: string,
    status: string,
    priority: string,
    hiringManager: string,
    recruiter: string,
    createdDate: string,
    targetStartDate: string,
    description: string,
    requirements: seq<string>,
    salaryRange: string,
    positionsToFill: int,
    roleType: string,
    hiringStages: seq<Stage>)

  /** `hiring_stages.map(stage => stage.id)`. */
  function StageIds(stages: seq<Stage>): (ids: seq<string>)
    ensures |ids| == |stages|
    ensures forall i :: 0 <= i < |stages| ==> ids[i] == stages[i].id
  {
    seq(|stages|, i requires 0 <= i < |stages| => stages[i].id)
  }

  /** The candidate ids of a list, in order. */
  function CandidateIds(cs: seq<Candidate>): (ids: seq<string>)
    ensures |ids| == |cs|
    ensures forall i :: 0 <= i < |cs| ==> ids[i] == cs[i].id
  {
    seq(|cs|, i requires 0 <= i < |cs| => cs[i].id)
  }

  // Predicates handed to `Filter` and `Find`; naming them keeps two uses of
  // the same test equal as values.

  function HasId(id: string): Candidate -> bool
  {
    (c: Candidate) => c.id == id
  }

  function NotId(id: string): Candidate -> bool
  {
    (c: Candidate) => c.id != id
  }

  function ForRequisition(requisitionId: string): Candidate -> bool
  {
    (c: Candidate) => c.requisitionId == requisitionId
  }

  function AtStage(stageId: string): Candidate -> bool
  {
    (c: Candidate) => c.currentStage == stageId
  }

  function RequisitionHasId(id: string): Requisition -> bool
  {
    (r: Requisition) => r.id == id
  }

  function StageHasId(id: string): Stage -> bool
  {
    (s: Stage) => s.id == id
  }
}
