/** Aggregate counts shown on the dashboard: the global buckets of
    `candidateStatsAtom` (also shown for the filtered list of the candidates
    page) and the per-stage counts of one requisition's candidates. */
module Stats {
  import opened Common
  import opened Model

  /** The stage ids the global "In Interview" bucket collects; the bucket
      definitions are fixed, not taken from any requisition. */
  const InterviewStageIds: seq<string> := [
    "phone_interview", "technical_interview", "final_interview", "case_study",
    "design_interview", "stakeholder_interview", "team_interview"]

  datatype CandidateStats = CandidateStats(totalCandidates: nat, inInterview: nat, offersExtended: nat, hired: nat)

  /** One requisition's figures: its candidate total, its positions to fill,
      and a count per declared stage id. */
  datatype RequisitionStats = RequisitionStats(totalCandidates: nat, positionsToFill: int, stages: map<string, nat>)

  /** The interview bucket's test: the seven interview stages, and none of
      the stages counted in the other buckets or before interviews. */
  function InInterview(): (p: Candidate -> bool)
    ensures forall c: Candidate :: p(c) <==> c.currentStage in InterviewStageIds
    ensures forall c: Candidate :: c.currentStage in {"applied", "screening", "offer", "hired", "rejected"} ==> !p(c)
  {
    (c: Candidate) => c.currentStage in InterviewStageIds
  }

  /** The four dashboard figures for a candidate list. The three buckets are
      disjoint sets of stages, so together they never exceed the total. */
  function CandidateStatsOf(cs: seq<Candidate>): (r: CandidateStats)
    ensures r.totalCandidates == |cs|
    ensures r.inInterview == |Filter(cs, InInterview())|
    ensures r.offersExtended == |Filter(cs, AtStage("offer"))|
    ensures r.hired == |Filter(cs, AtStage("hired"))|
    ensures r.inInterview + r.offersExtended + r.hired <= r.totalCandidates
  {
    DisjointBuckets(cs);
    CandidateStats(|cs|, |Filter(cs, InInterview())|, |Filter(cs, AtStage("offer"))|, |Filter(cs, AtStage("hired"))|)
  }

  lemma {:induction false} DisjointBuckets(cs: seq<Candidate>)
    ensures |Filter(cs, InInterview())| + |Filter(cs, AtStage("offer"))| + |Filter(cs, AtStage("hired"))| <= |cs|
    decreases |cs|
  {
    if cs != [] {
      DisjointBuckets(cs[1..]);
    }
  }

  // ---------------------------------------------------------------------
  // Per-stage counts of one requisition
  // ---------------------------------------------------------------------

  /** The `stages` dictionary: one key per declared stage id, mapped to the
      number of candidates at that stage. */
  function StageCountsSpec(stages: seq<Stage>, cs: seq<Candidate>): (counts: map<string, nat>)
    ensures counts.Keys == set i | 0 <= i < |stages| :: stages[i].id
  {
    map id | id in StageIds(stages) :: |Filter(cs, AtStage(id))|
  }

  /** The `forEach` that fills the `stages` dictionary one stage at a time. */
  method CountStages(stages: seq<Stage>, cs: seq<Candidate>) returns (counts: map<string, nat>)
    ensures counts == StageCountsSpec(stages, cs)
  {
    counts := map[];
    for i := 0 to |stages|
      invariant counts == StageCountsSpec(stages[..i], cs)
    {
      var id := stages[i].id;
      StageCountsStep(stages, i, cs);
      counts := counts[id := |Filter(cs, AtStage(id))|];
    }
    assert stages[..|stages|] == stages;
  }

  /** Counting one more stage adds (or overwrites) that stage's entry. */
  lemma StageCountsStep(stages: seq<Stage>, i: nat, cs: seq<Candidate>)
    requires i < |stages|
    ensures StageCountsSpec(stages[..i + 1], cs)
         == StageCountsSpec(stages[..i], cs)[stages[i].id := |Filter(cs, AtStage(stages[i].id))|]
  {
    assert StageIds(stages[..i + 1]) == StageIds(stages[..i]) + [stages[i].id];
  }

  /** The sum of `counts[id]` over the ids in `ids`. */
  function SumOver(ids: seq<string>, counts: map<string, nat>): nat
    requires forall i :: 0 <= i < |ids| ==> ids[i] in counts
  {
    if ids == [] then 0 else counts[ids[0]] + SumOver(ids[1..], counts)
  }

  function SumStageCounts(ids: seq<string>, cs: seq<Candidate>): nat
  {
    if ids == [] then 0 else |Filter(cs, AtStage(ids[0]))| + SumStageCounts(ids[1..], cs)
  }

  /** How many times `x` occurs in `ids`. */
  function Occurrences(ids: seq<string>, x: string): nat
  {
    if ids == [] then 0 else (if ids[0] == x then 1 else 0) + Occurrences(ids[1..], x)
  }

  lemma {:induction false} OccursOnce(ids: seq<string>, x: string)
    requires NoDuplicates(ids) && x in ids
    ensures Occurrences(ids, x) == 1
    decreases |ids|
  {
    if ids[0] == x {
      OccursNot(ids[1..], x);
    } else {
      OccursOnce(ids[1..], x);
    }
  }

  lemma {:induction false} OccursNot(ids: seq<string>, x: string)
    requires x !in ids
    ensures Occurrences(ids, x) == 0
    decreases |ids|
  {
    if ids != [] {
      OccursNot(ids[1..], x);
    }
  }

  lemma {:induction false} SumStageCountsCons(ids: seq<string>, c: Candidate, rest: seq<Candidate>)
    ensures SumStageCounts(ids, [c] + rest) == SumStageCounts(ids, rest) + Occurrences(ids, c.currentStage)
    decreases |ids|
  {
    if ids != [] {
      assert ([c] + rest)[1..] == rest;
      SumStageCountsCons(ids[1..], c, rest);
    }
  }

  lemma {:induction false} SumStageCountsCoversAll(ids: seq<string>, cs: seq<Candidate>)
    requires NoDuplicates(ids)
    requires forall i :: 0 <= i < |cs| ==> cs[i].currentStage in ids
    ensures SumStageCounts(ids, cs) == |cs|
    decreases |cs|
  {
    if cs == [] {
      SumStageCountsOfNone(ids);
    } else {
      assert cs == [cs[0]] + cs[1..];
      SumStageCountsCons(ids, cs[0], cs[1..]);
      OccursOnce(ids, cs[0].currentStage);
      SumStageCountsCoversAll(ids, cs[1..]);
    }
  }

  lemma {:induction false} SumStageCountsOfNone(ids: seq<string>)
    ensures SumStageCounts(ids, []) == 0
    decreases |ids|
  {
    if ids != [] {
      SumStageCountsOfNone(ids[1..]);
    }
  }

  lemma {:induction false} SumOverCounts(ids: seq<string>, all: seq<string>, stages: seq<Stage>, cs: seq<Candidate>)
    requires all == StageIds(stages)
    requires forall i :: 0 <= i < |ids| ==> ids[i] in all
    ensures forall i :: 0 <= i < |ids| ==> ids[i] in StageCountsSpec(stages, cs)
    ensures SumOver(ids, StageCountsSpec(stages, cs)) == SumStageCounts(ids, cs)
    decreases |ids|
  {
    if ids != [] {
      SumOverCounts(ids[1..], all, stages, cs);
    }
  }

  /** With unique stage ids and every candidate at a declared stage, the
      per-stage counts add up to the number of candidates. */
  lemma StageCountsSumToTotal(stages: seq<Stage>, cs: seq<Candidate>)
    requires NoDuplicates(StageIds(stages))
    requires forall i :: 0 <= i < |cs| ==> cs[i].currentStage in StageIds(stages)
    ensures forall i :: 0 <= i < |stages| ==> stages[i].id in StageCountsSpec(stages, cs)
    ensures SumOver(StageIds(stages), StageCountsSpec(stages, cs)) == |cs|
  {
    var ids := StageIds(stages);
    SumOverCounts(ids, ids, stages, cs);
    SumStageCountsCoversAll(ids, cs);
  }
}
