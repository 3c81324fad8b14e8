/** The default pipeline, the sample records the store starts from, and the
    lookups over them. The lookups close over the sample collections in the
    application; here the collections are parameters, and the samples are the
    constants below. */
module Data {
  import opened Common
  import opened Model
  import opened Stats

  const DefaultHiringStages: seq<Stage> := [
    Stage("applied", "Applied", "Candidates who have submitted applications"),
    Stage("screening", "Screening", "Initial screening and resume review"),
    Stage("phone_interview", "Phone Interview", "Phone or video screening interview"),
    Stage("technical_interview", "Technical Interview", "Technical assessment and interview"),
    Stage("final_interview", "Final Interview", "Final round with hiring manager"),
    Stage("offer", "Offer Extended", "Job offer has been extended"),
    Stage("hired", "Hired", "Candidate accepted and onboarded"),
    Stage("rejected", "Rejected", "Application was not successful")
  ]

  const ProductStages: seq<Stage> := [
    Stage("applied", "Applied", "Candidates who have submitted applications"),
    Stage("screening", "Initial Screening", "Resume and portfolio review"),
    Stage("case_study", "Case Study", "Product case study presentation"),
    Stage("stakeholder_interview", "Stakeholder Interview", "Interview with key stakeholders"),
    Stage("final_interview", "Final Interview", "Final round with executive team"),
    Stage("offer", "Offer Extended", "Job offer has been extended"),
    Stage("hired", "Hired", "Candidate accepted and onboarded"),
    Stage("rejected", "Rejected", "Application was not successful")
  ]

  const DesignStages: seq<Stage> := [
    Stage("applied", "Applied", "Candidates who have submitted applications"),
    Stage("portfolio_review", "Portfolio Review", "Design portfolio assessment"),
    Stage("design_challenge", "Design Challenge", "Take-home design exercise"),
    Stage("design_interview", "Design Interview", "Portfolio presentation and design discussion"),
    Stage("team_interview", "Team Interview", "Cultural fit and team collaboration"),
    Stage("offer", "Offer Extended", "Contract offer has been extended"),
    Stage("hired", "Hired", "Candidate accepted and onboarded"),
    Stage("rejected", "Rejected", "Application was not successful")
  ]

  // The sample records. Each requisition keeps the opening words of its
  // description and the first two entries of its requirement list; no
  // operation inspects those texts.
  const Req001: Requisition := Requisition(
    id := "req-001", title := "Senior Frontend Developer", department := "Engineering",
    location := "San Francisco, CA", employmentType := "Full-time", status := "open",
    priority := "high", hiringManager := "Sarah Johnson", recruiter := "Mike Chen",
    createdDate := "2024-01-15", targetStartDate := "2024-03-01",
    description := "We are looking for a Senior Frontend Developer",
    requirements := ["5+ years of frontend development experience", "Expert knowledge of React and TypeScript"],
    salaryRange := "$120,000 - $160,000", positionsToFill := 2, roleType := "",
    hiringStages := DefaultHiringStages)

  const Req002: Requisition := Requisition(
    id := "req-002", title := "Product Manager", department := "Product",
    location := "Remote", employmentType := "Full-time", status := "open",
    priority := "medium", hiringManager := "David Rodriguez", recruiter := "Lisa Wang",
    createdDate := "2024-01-20", targetStartDate := "2024-02-15",
    description := "We are seeking an experienced Product Manager",
    requirements := ["3+ years of product management experience", "Experience with B2B SaaS products"],
    salaryRange := "$110,000 - $140,000", positionsToFill := 1, roleType := "",
    hiringStages := ProductStages)

  const Req003: Requisition := Requisition(
    id := "req-003", title := "UX Designer", department := "Design",
    location := "New York, NY", employmentType := "Contract", status := "open",
    priority := "low", hiringManager := "Emma Thompson", recruiter := "Alex Kim",
    createdDate := "2024-01-25", targetStartDate := "2024-02-20",
    description := "We are looking for a talented UX Designer",
    requirements := ["3+ years of UX design experience", "Proficiency in Figma and design systems"],
    salaryRange := "$70 - $90 per hour", positionsToFill := 1, roleType := "",
    hiringStages := DesignStages)

  const SampleRequisitions: seq<Requisition> := [Req001, Req002, Req003]

  const Cand001: Candidate := Candidate(
    id := "cand-001", requisitionId := "req-001", firstName := "Alex", lastName := "Chen",
    email := "alex.chen@email.com",
    profile := Profile("+1 (555) 123-4567", "San Francisco, CA", "LinkedIn", "TechCorp Inc.",
      "Frontend Developer", "https://linkedin.com/in/alexchen", "/resumes/alex-chen.pdf",
      "https://alexchen.dev", "$145,000", "2 weeks", "Strong React skills, great portfolio. Moving to technical round."),
    currentStage := "technical_interview", priority := "high", experienceYears := 6,
    appliedDate := "2024-01-20", tags := ["react", "typescript", "senior-level", "local"],
    interviews := [
      Interview("2024-01-22", "screening", "Mike Chen", 4, "Great communication skills, solid technical background"),
      Interview("2024-01-25", "phone_interview", "Sarah Johnson", 4, "Impressive experience, good cultural fit")],
    createdAt := "2024-01-20", updatedAt := "2024-01-25")

  const Cand002: Candidate := Candidate(
    id := "cand-002", requisitionId := "req-001", firstName := "Maya", lastName := "Patel",
    email := "maya.patel@email.com",
    profile := Profile("+1 (555) 234-5678", "Austin, TX", "Company Website", "StartupXYZ",
      "Senior Frontend Engineer", "https://linkedin.com/in/mayapatel", "/resumes/maya-patel.pdf",
      "https://mayapatel.io", "$135,000", "1 month", "Open to relocation, strong Next.js experience"),
    currentStage := "phone_interview", priority := "medium", experienceYears := 5,
    appliedDate := "2024-01-18", tags := ["react", "nextjs", "remote-friendly"],
    interviews := [
      Interview("2024-01-23", "screening", "Mike Chen", 3, "Good technical skills, needs to improve communication")],
    createdAt := "2024-01-18", updatedAt := "2024-01-23")

  const Cand003: Candidate := Candidate(
    id := "cand-003", requisitionId := "req-001", firstName := "James", lastName := "Wilson",
    email := "james.wilson@email.com",
    profile := Profile("+1 (555) 345-6789", "Seattle, WA", "Referral", "BigTech Co.",
      "Frontend Developer", "https://linkedin.com/in/jameswilson", "/resumes/james-wilson.pdf",
      "", "$125,000", "2 weeks", "Referred by John Doe, needs initial screening"),
    currentStage := "applied", priority := "low", experienceYears := 4,
    appliedDate := "2024-01-26", tags := ["react", "junior-to-mid", "referral"],
    interviews := [],
    createdAt := "2024-01-26", updatedAt := "2024-01-26")

  const Cand004: Candidate := Candidate(
    id := "cand-004", requisitionId := "req-001", firstName := "Sofia", lastName := "Rodriguez",
    email := "sofia.rodriguez@email.com",
    profile := Profile("+1 (555) 456-7890", "Los Angeles, CA", "Recruiter", "Design Systems Inc.",
      "Principal Frontend Engineer", "https://linkedin.com/in/sofiarodriguez", "/resumes/sofia-rodriguez.pdf",
      "https://sofia-dev.com", "$155,000", "3 weeks", "Excellent candidate, offer extended at $150k"),
    currentStage := "offer", priority := "high", experienceYears := 7,
    appliedDate := "2024-01-15", tags := ["react", "design-systems", "senior-level", "offer-stage"],
    interviews := [
      Interview("2024-01-17", "screening", "Mike Chen", 5, "Outstanding candidate with great experience"),
      Interview("2024-01-19", "phone_interview", "Sarah Johnson", 5, "Perfect fit for our team and culture"),
      Interview("2024-01-22", "technical_interview", "Tech Team", 5, "Exceptional technical skills and problem-solving"),
      Interview("2024-01-24", "final_interview", "Sarah Johnson", 5, "Strong leadership potential, recommended for hire")],
    createdAt := "2024-01-15", updatedAt := "2024-01-26")

  const Cand005: Candidate := Candidate(
    id := "cand-005", requisitionId := "req-002", firstName := "Michael", lastName := "Brown",
    email := "michael.brown@email.com",
    profile := Profile("+1 (555) 567-8901", "Remote (EST)", "AngelList", "ProductCo",
      "Senior Product Manager", "https://linkedin.com/in/michaelbrown", "/resumes/michael-brown.pdf",
      "", "$130,000", "1 month", "Strong B2B SaaS background, preparing case study presentation"),
    currentStage := "case_study", priority := "high", experienceYears := 5,
    appliedDate := "2024-01-22", tags := ["product-management", "saas", "remote", "senior-level"],
    interviews := [
      Interview("2024-01-24", "screening", "Lisa Wang", 4, "Great PM experience, strong analytical skills")],
    createdAt := "2024-01-22", updatedAt := "2024-01-24")

  const Cand006: Candidate := Candidate(
    id := "cand-006", requisitionId := "req-003", firstName := "Priya", lastName := "Singh",
    email := "priya.singh@email.com",
    profile := Profile("+1 (555) 678-9012", "New York, NY", "Dribbble", "Creative Agency",
      "UX Designer", "https://linkedin.com/in/priyasingh", "/resumes/priya-singh.pdf",
      "https://priyasingh.design", "$80/hour", "2 weeks", "Beautiful portfolio, currently working on design challenge"),
    currentStage := "design_challenge", priority := "medium", experienceYears := 4,
    appliedDate := "2024-01-27", tags := ["ux-design", "figma", "user-research", "local"],
    interviews := [
      Interview("2024-01-29", "portfolio_review", "Emma Thompson", 4, "Impressive portfolio with strong design thinking")],
    createdAt := "2024-01-27", updatedAt := "2024-01-29")

  const SampleCandidates: seq<Candidate> := [Cand001, Cand002, Cand003, Cand004, Cand005, Cand006]

  // ---------------------------------------------------------------------
  // Lookups
  // ---------------------------------------------------------------------

  /** The first requisition with the given id, or `None` (`undefined`). */
  function GetRequisitionById(requisitions: seq<Requisition>, id: string): (r: Option<Requisition>)
    ensures r.None? <==> forall i :: 0 <= i < |requisitions| ==> requisitions[i].id != id
    ensures r.Some? ==> r.value in requisitions && r.value.id == id
  {
    Find(requisitions, RequisitionHasId(id))
  }

  function GetCandidatesByRequisition(candidates: seq<Candidate>, requisitionId: string): (r: seq<Candidate>)
    ensures IsSubsequence(r, candidates)
    ensures forall c :: c in r <==> c in candidates && c.requisitionId == requisitionId
  {
    Filter(candidates, ForRequisition(requisitionId))
  }

  function InRequisitionAtStage(requisitionId: string, stageId: string): Candidate -> bool
  {
    (c: Candidate) => c.requisitionId == requisitionId && c.currentStage == stageId
  }

  function GetCandidatesByStage(candidates: seq<Candidate>, requisitionId: string, stageId: string): (r: seq<Candidate>)
    ensures IsSubsequence(r, candidates)
    ensures forall c :: c in r <==> c in candidates && c.requisitionId == requisitionId && c.currentStage == stageId
  {
    Filter(candidates, InRequisitionAtStage(requisitionId, stageId))
  }

  /** The candidates of a requisition at one stage are exactly the
      requisition's candidates filtered by stage, in the same order. */
  lemma {:induction false} ByStageRefinesByRequisition(candidates: seq<Candidate>, requisitionId: string, stageId: string)
    ensures GetCandidatesByStage(candidates, requisitionId, stageId)
         == Filter(GetCandidatesByRequisition(candidates, requisitionId), AtStage(stageId))
    decreases |candidates|
  {
    if candidates != [] {
      ByStageRefinesByRequisition(candidates[1..], requisitionId, stageId);
    }
  }

  /** `getRequisitionStats`: `None` (`null`) for an unknown id; otherwise the
      candidate total, the positions to fill, and the per-stage dictionary
      filled by the `forEach` over the requisition's stages. */
  method GetRequisitionStats(requisitions: seq<Requisition>, candidates: seq<Candidate>, requisitionId: string)
    returns (r: Option<RequisitionStats>)
    ensures r.None? <==> GetRequisitionById(requisitions, requisitionId).None?
    ensures r.Some? ==>
      var req := GetRequisitionById(requisitions, requisitionId).value;
      var mine := GetCandidatesByRequisition(candidates, requisitionId);
      r.value.totalCandidates == |mine| &&
      r.value.positionsToFill == req.positionsToFill &&
      r.value.stages == StageCountsSpec(req.hiringStages, mine)
  {
    var mine := GetCandidatesByRequisition(candidates, requisitionId);
    var found := GetRequisitionById(requisitions, requisitionId);
    if found.None? {
      return None;
    }
    var req := found.value;
    var stages: map<string, nat> := map[];
    for i := 0 to |req.hiringStages|
      invariant stages == StageCountsSpec(req.hiringStages[..i], mine)
    {
      var id := req.hiringStages[i].id;
      ByStageRefinesByRequisition(candidates, requisitionId, id);
      StageCountsStep(req.hiringStages, i, mine);
      stages := stages[id := |GetCandidatesByStage(candidates, requisitionId, id)|];
    }
    assert req.hiringStages[..|req.hiringStages|] == req.hiringStages;
    r := Some(RequisitionStats(|mine|, req.positionsToFill, stages));
  }

  // ---------------------------------------------------------------------
  // Priority styling
  // ---------------------------------------------------------------------

  const GrayBorder := "border-l-gray-300"
  const LowBadge := "bg-green-100 text-green-800 dark:bg-green-900 dark:text-green-300"

  function PriorityColor(priority: string): (r: string)
    ensures priority != "high" && priority != "medium" && priority != "low" ==> r == GrayBorder
  {
    match priority
    case "high" => "border-l-red-500"
    case "medium" => "border-l-yellow-500"
    case "low" => "border-l-green-500"
    case _ => GrayBorder
  }

  /** The three known priorities get three different border classes, none of
      them the fallback. */
  lemma PriorityColorsDistinct()
    ensures PriorityColor("high") != PriorityColor("medium")
    ensures PriorityColor("high") != PriorityColor("low")
    ensures PriorityColor("medium") != PriorityColor("low")
    ensures forall p :: p in ["high", "medium", "low"] ==> PriorityColor(p) != GrayBorder
  {
  }

  const PriorityBadges: map<string, string> := map[
    "high" := "bg-red-100 text-red-800 dark:bg-red-900 dark:text-red-300",
    "medium" := "bg-yellow-100 text-yellow-800 dark:bg-yellow-900 dark:text-yellow-300",
    "low" := LowBadge]

  /** `getPriorityBadge`: `colors[priority] || colors.low`. A name inherited
      from `Object.prototype` is read from the prototype instead. */
  function PriorityBadge(priority: string): (r: PropertyRead)
    ensures priority in PriorityBadges ==> r == OwnText(PriorityBadges[priority])
    ensures priority in ObjectPrototypeNames ==> r == InheritedMember(priority)
    ensures priority !in PriorityBadges && priority !in ObjectPrototypeNames ==> r == OwnText(LowBadge)
  {
    ReadOr(PriorityBadges, priority, LowBadge)
  }

  /** A priority is styled exactly as a low one when it is neither `high`
      nor `medium` nor a name inherited from `Object.prototype`. */
  lemma PriorityBadgeFallsBackToLow(priority: string)
    ensures PriorityBadge(priority) == PriorityBadge("low") <==>
            priority != "high" && priority != "medium" && priority !in ObjectPrototypeNames
  {
    assert PriorityBadges["high"] != LowBadge && PriorityBadges["medium"] != LowBadge;
  }

  // ---------------------------------------------------------------------
  // Invariants of the sample data
  // ---------------------------------------------------------------------

  /** A candidate's stage and every interview type are stages of its
      requisition. */
  predicate StagesDeclared(requisitions: seq<Requisition>, c: Candidate)
  {
    var r := GetRequisitionById(requisitions, c.requisitionId);
    r.Some? &&
    c.currentStage in StageIds(r.value.hiringStages) &&
    forall k :: 0 <= k < |c.interviews| ==> c.interviews[k].kind in StageIds(r.value.hiringStages)
  }

  lemma DefaultStagesWellFormed()
    ensures NoDuplicates(StageIds(DefaultHiringStages))
    ensures "hired" in StageIds(DefaultHiringStages) && "rejected" in StageIds(DefaultHiringStages)
  {
    DefaultStageIds();
  }

  lemma SampleStageIds()
    ensures StageIds(DefaultHiringStages) == DefaultIds
    ensures StageIds(ProductStages) == ProductIds
    ensures StageIds(DesignStages) == DesignIds
  {
    DefaultStageIds();
    ProductStageIds();
    DesignStageIds();
  }

  const DefaultIds: seq<string> := ["applied", "screening", "phone_interview", "technical_interview",
                                    "final_interview", "offer", "hired", "rejected"]
  const ProductIds: seq<string> := ["applied", "screening", "case_study", "stakeholder_interview",
                                    "final_interview", "offer", "hired", "rejected"]
  const DesignIds: seq<string> := ["applied", "portfolio_review", "design_challenge", "design_interview",
                                   "team_interview", "offer", "hired", "rejected"]

  lemma DefaultStageIds()
    ensures StageIds(DefaultHiringStages) == DefaultIds
  {
  }

  lemma ProductStageIds()
    ensures StageIds(ProductStages) == ProductIds
  {
  }

  lemma DesignStageIds()
    ensures StageIds(DesignStages) == DesignIds
  {
  }

  lemma SampleRequisitionLookup()
    ensures GetRequisitionById(SampleRequisitions, "req-001") == Some(Req001)
    ensures GetRequisitionById(SampleRequisitions, "req-002") == Some(Req002)
    ensures GetRequisitionById(SampleRequisitions, "req-003") == Some(Req003)
  {
    Req001Lookup();
    Req002Lookup();
    Req003Lookup();
  }

  lemma Req001Lookup()
    ensures GetRequisitionById(SampleRequisitions, "req-001") == Some(Req001)
  {
    assert SampleRequisitions[0] == Req001;
  }

  lemma Req002Lookup()
    ensures GetRequisitionById(SampleRequisitions, "req-002") == Some(Req002)
  {
    assert SampleRequisitions[0] == Req001 && SampleRequisitions[1] == Req002;
    assert !RequisitionHasId("req-002")(Req001);
    assert FindIndex(SampleRequisitions, RequisitionHasId("req-002")) == 1;
  }

  lemma Req003Lookup()
    ensures GetRequisitionById(SampleRequisitions, "req-003") == Some(Req003)
  {
    assert SampleRequisitions[0] == Req001 && SampleRequisitions[1] == Req002 && SampleRequisitions[2] == Req003;
    assert !RequisitionHasId("req-003")(Req001) && !RequisitionHasId("req-003")(Req002);
    assert FindIndex(SampleRequisitions, RequisitionHasId("req-003")) == 2;
  }

  lemma SampleCandidatesUnique()
    ensures NoDuplicates(CandidateIds(SampleCandidates))
  {
    assert CandidateIds(SampleCandidates) == ["cand-001", "cand-002", "cand-003", "cand-004", "cand-005", "cand-006"];
  }

  lemma DeclaredIn(c: Candidate, r: Requisition, used: seq<string>)
    requires GetRequisitionById(SampleRequisitions, c.requisitionId) == Some(r)
    requires forall k :: 0 <= k < |used| ==> used[k] in StageIds(r.hiringStages)
    requires c.currentStage in used
    requires forall k :: 0 <= k < |c.interviews| ==> c.interviews[k].kind in used
    ensures StagesDeclared(SampleRequisitions, c)
  {
  }

  lemma Cand001Declared()
    ensures StagesDeclared(SampleRequisitions, Cand001)
  {
    DefaultStageIds();
    Req001Lookup();
    DeclaredIn(Cand001, Req001, ["technical_interview", "screening", "phone_interview"]);
  }

  lemma Cand002Declared()
    ensures StagesDeclared(SampleRequisitions, Cand002)
  {
    DefaultStageIds();
    Req001Lookup();
    DeclaredIn(Cand002, Req001, ["phone_interview", "screening"]);
  }

  lemma Cand003Declared()
    ensures StagesDeclared(SampleRequisitions, Cand003)
  {
    DefaultStageIds();
    Req001Lookup();
    DeclaredIn(Cand003, Req001, ["applied"]);
  }

  lemma Cand004Declared()
    ensures StagesDeclared(SampleRequisitions, Cand004)
  {
    DefaultStageIds();
    Req001Lookup();
    DeclaredIn(Cand004, Req001, ["offer", "screening", "phone_interview", "technical_interview", "final_interview"]);
  }

  lemma Cand005Declared()
    ensures StagesDeclared(SampleRequisitions, Cand005)
  {
    ProductStageIds();
    Req002Lookup();
    DeclaredIn(Cand005, Req002, ["case_study", "screening"]);
  }

  lemma Cand006Declared()
    ensures StagesDeclared(SampleRequisitions, Cand006)
  {
    DesignStageIds();
    Req003Lookup();
    DeclaredIn(Cand006, Req003, ["design_challenge", "portfolio_review"]);
  }

  /** Every sample candidate sits at, and was interviewed for, stages of its
      own requisition. */
  lemma SampleCandidatesDeclared()
    ensures forall i :: 0 <= i < |SampleCandidates| ==> StagesDeclared(SampleRequisitions, SampleCandidates[i])
  {
    forall i | 0 <= i < |SampleCandidates|
      ensures StagesDeclared(SampleRequisitions, SampleCandidates[i])
    {
      if i == 0 { assert SampleCandidates[0] == Cand001; Cand001Declared(); }
      else if i == 1 { assert SampleCandidates[1] == Cand002; Cand002Declared(); }
      else if i == 2 { assert SampleCandidates[2] == Cand003; Cand003Declared(); }
      else if i == 3 { assert SampleCandidates[3] == Cand004; Cand004Declared(); }
      else if i == 4 { assert SampleCandidates[4] == Cand005; Cand005Declared(); }
      else { assert SampleCandidates[5] == Cand006; Cand006Declared(); }
    }
  }
}
