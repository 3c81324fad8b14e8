/** The all-candidates page: every candidate with its requisition's title and
    department, narrowed by three selectors, with the bucket counts of the
    narrowed list and the stage labels and badge colours of its rows. */
module CandidatesPage {
  import opened Common
  import opened Model
  import Stats

  /** A candidate with the title and department of its requisition. */
  datatype EnrichedCandidate = EnrichedCandidate(candidate: Candidate, requisitionTitle: string, requisitionDepartment: string)

  const Unknown := "Unknown"

  /** `x || 'Unknown'` on a string. */
  function OrUnknown(s: string): string
  {
    if s == [] then Unknown else s
  }

  /** The row for one candidate: the first requisition with its id supplies
      title and department (an empty one reads `Unknown`); without one both
      read `Unknown`. */
  function Enrich(c: Candidate, reqs: seq<Requisition>): (e: EnrichedCandidate)
    ensures e.candidate == c
    ensures Find(reqs, RequisitionHasId(c.requisitionId)).None? ==>
              e.requisitionTitle == Unknown && e.requisitionDepartment == Unknown
    ensures Find(reqs, RequisitionHasId(c.requisitionId)).Some? ==>
              var r := Find(reqs, RequisitionHasId(c.requisitionId)).value;
              r.id == c.requisitionId && r in reqs &&
              e.requisitionTitle == OrUnknown(r.title) && e.requisitionDepartment == OrUnknown(r.department)
    ensures e.requisitionTitle != [] && e.requisitionDepartment != []
  {
    match Find(reqs, RequisitionHasId(c.requisitionId))
    case None => EnrichedCandidate(c, Unknown, Unknown)
    case Some(r) => EnrichedCandidate(c, OrUnknown(r.title), OrUnknown(r.department))
  }

  /** A candidate whose requisition is missing from the list is shown as
      `Unknown` / `Unknown`. */
  lemma EnrichWithoutRequisition(c: Candidate, reqs: seq<Requisition>)
    requires forall i :: 0 <= i < |reqs| ==> reqs[i].id != c.requisitionId
    ensures Enrich(c, reqs) == EnrichedCandidate(c, Unknown, Unknown)
  {
  }

  /** `candidatesWithRequisition`: one row per candidate, in order. */
  function EnrichAll(cs: seq<Candidate>, reqs: seq<Requisition>): (es: seq<EnrichedCandidate>)
    ensures |es| == |cs|
    ensures forall i :: 0 <= i < |cs| ==> es[i] == Enrich(cs[i], reqs)
  {
    seq(|cs|, i requires 0 <= i < |cs| => Enrich(cs[i], reqs))
  }

  /** The candidates behind a list of rows. */
  function Candidates(es: seq<EnrichedCandidate>): (cs: seq<Candidate>)
    ensures |cs| == |es|
    ensures forall i :: 0 <= i < |es| ==> cs[i] == es[i].candidate
  {
    seq(|es|, i requires 0 <= i < |es| => es[i].candidate)
  }

  /** Enriching loses no candidate. */
  lemma CandidatesOfEnrichAll(cs: seq<Candidate>, reqs: seq<Requisition>)
    ensures Candidates(EnrichAll(cs, reqs)) == cs
  {
  }

  // ---------------------------------------------------------------------
  // Selectors
  // ---------------------------------------------------------------------

  const All := "all"

  /** The three selectors: priority, stage and requisition id. */
  datatype Selection = Selection(priority: string, stage: string, requisition: string)

  const NoSelection := Selection(All, All, All)

  /** A selector accepts a value when it is `all` or equal to the value. */
  predicate Accepts(selector: string, value: string): (r: bool)
    ensures selector == All ==> r
    ensures selector != All ==> (r <==> value == selector)
  {
    selector == All || value == selector
  }

  function Keep(sel: Selection): EnrichedCandidate -> bool
  {
    (e: EnrichedCandidate) =>
      Accepts(sel.priority, e.candidate.priority) &&
      Accepts(sel.stage, e.candidate.currentStage) &&
      Accepts(sel.requisition, e.candidate.requisitionId)
  }

  /** `filteredCandidates`: the rows every selector accepts, in their order. */
  function FilterCandidates(es: seq<EnrichedCandidate>, sel: Selection): (r: seq<EnrichedCandidate>)
    ensures IsSubsequence(r, es)
    ensures forall e :: e in r <==> e in es && Keep(sel)(e)
  {
    Filter(es, Keep(sel))
  }

  /** With every selector at `all` the page lists every row. */
  lemma NoSelectionKeepsAll(es: seq<EnrichedCandidate>)
    ensures FilterCandidates(es, NoSelection) == es
  {
    FilterKeepsAll(es, Keep(NoSelection));
  }

  /** The page's four figures for the filtered rows; they are the dashboard
      figures of the candidates behind those rows. */
  function PageStats(es: seq<EnrichedCandidate>): (s: Stats.CandidateStats)
    ensures s == Stats.CandidateStatsOf(Candidates(es))
    ensures s.totalCandidates == |es|
    ensures s.inInterview + s.offersExtended + s.hired <= s.totalCandidates
  {
    Stats.CandidateStatsOf(Candidates(es))
  }

  /** Unfiltered, the page's figures are the global dashboard figures. */
  lemma UnfilteredPageMatchesDashboard(cs: seq<Candidate>, reqs: seq<Requisition>)
    ensures PageStats(FilterCandidates(EnrichAll(cs, reqs), NoSelection)) == Stats.CandidateStatsOf(cs)
  {
    NoSelectionKeepsAll(EnrichAll(cs, reqs));
    CandidatesOfEnrichAll(cs, reqs);
  }

  /** The options of the priority selector. */
  function PriorityValues(cs: seq<Candidate>): (r: seq<string>)
    ensures NoDuplicates(r)
    ensures forall i :: 0 <= i < |cs| ==> cs[i].priority in r
  {
    var ps := seq(|cs|, i requires 0 <= i < |cs| => cs[i].priority);
    DistinctSpec(ps);
    assert forall i :: 0 <= i < |cs| ==> ps[i] == cs[i].priority;
    Distinct(ps)
  }

  /** The options of the stage selector. */
  function StageValues(cs: seq<Candidate>): (r: seq<string>)
    ensures NoDuplicates(r)
    ensures forall i :: 0 <= i < |cs| ==> cs[i].currentStage in r
  {
    var ss := seq(|cs|, i requires 0 <= i < |cs| => cs[i].currentStage);
    DistinctSpec(ss);
    assert forall i :: 0 <= i < |cs| ==> ss[i] == cs[i].currentStage;
    Distinct(ss)
  }

  /** The priority selector lists every priority that occurs, once, and
      never one that does not occur. */
  lemma PriorityOptions(cs: seq<Candidate>)
    ensures NoDuplicates(PriorityValues(cs))
    ensures forall i :: 0 <= i < |cs| ==> cs[i].priority in PriorityValues(cs)
    ensures forall p :: p in PriorityValues(cs) ==> exists i :: 0 <= i < |cs| && cs[i].priority == p
  {
    var ps := seq(|cs|, i requires 0 <= i < |cs| => cs[i].priority);
    DistinctSpec(ps);
    forall i | 0 <= i < |cs|
      ensures cs[i].priority in PriorityValues(cs)
    {
      assert ps[i] == cs[i].priority;
    }
    forall p | p in PriorityValues(cs)
      ensures exists i :: 0 <= i < |cs| && cs[i].priority == p
    {
      var i :| 0 <= i < |ps| && ps[i] == p;
      assert cs[i].priority == p;
    }
  }

  /** The stage selector lists every stage that occurs, once, and never one
      that does not occur. */
  lemma StageOptions(cs: seq<Candidate>)
    ensures NoDuplicates(StageValues(cs))
    ensures forall i :: 0 <= i < |cs| ==> cs[i].currentStage in StageValues(cs)
    ensures forall s :: s in StageValues(cs) ==> exists i :: 0 <= i < |cs| && cs[i].currentStage == s
  {
    var ss := seq(|cs|, i requires 0 <= i < |cs| => cs[i].currentStage);
    DistinctSpec(ss);
    forall i | 0 <= i < |cs|
      ensures cs[i].currentStage in StageValues(cs)
    {
      assert ss[i] == cs[i].currentStage;
    }
    forall s | s in StageValues(cs)
      ensures exists i :: 0 <= i < |cs| && cs[i].currentStage == s
    {
      var i :| 0 <= i < |ss| && ss[i] == s;
      assert cs[i].currentStage == s;
    }
  }

  // ---------------------------------------------------------------------
  // Row labels
  // ---------------------------------------------------------------------

  /** `word.charAt(0).toUpperCase() + word.slice(1)`. */
  function Capitalise(word: string): (r: string)
    ensures |r| == |word|
    ensures word != [] ==> r[0] == Upper(word[0]) && r[1..] == word[1..]
  {
    if word == [] then [] else [Upper(word[0])] + word[1..]
  }

  function CapitaliseAll(words: seq<string>): (r: seq<string>)
    ensures |r| == |words|
    ensures forall i :: 0 <= i < |words| ==> r[i] == Capitalise(words[i])
  {
    seq(|words|, i requires 0 <= i < |words| => Capitalise(words[i]))
  }

  /** `formatStage`: split on `_`, capitalise each piece, join with spaces. */
  function FormatStage(stage: string): (r: string)
    ensures r == Spaced(stage, true)
  {
    var pieces := Split(stage, '_');
    JoinCapitalisedIsSpaced(stage, true);
    assert [Capitalise(pieces[0])] + CapitaliseAll(pieces[1..]) == CapitaliseAll(pieces);
    Join(CapitaliseAll(pieces), ' ')
  }

  /** An independent reading of the same label, one character at a time:
      every `_` becomes a space and the character that starts a word (the
      first one, or one right after `_`) is upper-cased. */
  function Spaced(s: string, atWordStart: bool): (r: string)
    ensures |r| == |s|
    decreases |s|
  {
    if s == [] then []
    else if s[0] == '_' then " " + Spaced(s[1..], true)
    else [if atWordStart then Upper(s[0]) else s[0]] + Spaced(s[1..], false)
  }

  /** The split-capitalise-join pipeline with the first piece capitalised or
      left as it is. */
  function JoinCapitalised(pieces: seq<string>, capitaliseFirst: bool): string
    requires |pieces| >= 1
  {
    Join([if capitaliseFirst then Capitalise(pieces[0]) else pieces[0]] + CapitaliseAll(pieces[1..]), ' ')
  }

  lemma {:induction false} JoinCapitalisedIsSpaced(s: string, atWordStart: bool)
    ensures JoinCapitalised(Split(s, '_'), atWordStart) == Spaced(s, atWordStart)
    decreases |s|
  {
    var pieces := Split(s, '_');
    if s == [] {
      assert pieces == [[]];
    } else if s[0] == '_' {
      var rest := Split(s[1..], '_');
      assert pieces == [[]] + rest;
      JoinCapitalisedIsSpaced(s[1..], true);
      var capped := [Capitalise(rest[0])] + CapitaliseAll(rest[1..]);
      assert CapitaliseAll(pieces[1..]) == capped;
      assert ([[]] + capped)[1..] == capped;
    } else {
      var rest := Split(s[1..], '_');
      assert pieces == [[s[0]] + rest[0]] + rest[1..];
      JoinCapitalisedIsSpaced(s[1..], false);
      var first := if atWordStart then Capitalise(pieces[0]) else pieces[0];
      var c := if atWordStart then Upper(s[0]) else s[0];
      assert first == [c] + rest[0];
      assert pieces[1..] == rest[1..];
      var tail := [rest[0]] + CapitaliseAll(rest[1..]);
      JoinHead([c], tail, ' ');
      assert [[c] + tail[0]] + tail[1..] == [first] + CapitaliseAll(pieces[1..]);
    }
  }

  /** `formatStage` agrees with the character-wise reading: same length,
      `_` turned into spaces and each word's first letter upper-cased. */
  lemma FormatStageIsSpaced(stage: string)
    ensures FormatStage(stage) == Spaced(stage, true)
    ensures |FormatStage(stage)| == |stage|
  {
    JoinCapitalisedIsSpaced(stage, true);
    var pieces := Split(stage, '_');
    assert [Capitalise(pieces[0])] + CapitaliseAll(pieces[1..]) == CapitaliseAll(pieces);
  }

  /** The default badge for a stage the colour table does not list. */
  const GrayBadge := "bg-gray-100 text-gray-800 dark:bg-gray-900 dark:text-gray-300"

  const StageColors: map<string, string> := map[
    "applied" := "bg-blue-100 text-blue-800 dark:bg-blue-900 dark:text-blue-300",
    "screening" := "bg-purple-100 text-purple-800 dark:bg-purple-900 dark:text-purple-300",
    "phone_interview" := "bg-indigo-100 text-indigo-800 dark:bg-indigo-900 dark:text-indigo-300",
    "technical_interview" := "bg-orange-100 text-orange-800 dark:bg-orange-900 dark:text-orange-300",
    "final_interview" := "bg-pink-100 text-pink-800 dark:bg-pink-900 dark:text-pink-300",
    "case_study" := "bg-cyan-100 text-cyan-800 dark:bg-cyan-900 dark:text-cyan-300",
    "design_challenge" := "bg-teal-100 text-teal-800 dark:bg-teal-900 dark:text-teal-300",
    "portfolio_review" := "bg-lime-100 text-lime-800 dark:bg-lime-900 dark:text-lime-300",
    "design_interview" := "bg-emerald-100 text-emerald-800 dark:bg-emerald-900 dark:text-emerald-300",
    "stakeholder_interview" := "bg-violet-100 text-violet-800 dark:bg-violet-900 dark:text-violet-300",
    "team_interview" := "bg-sky-100 text-sky-800 dark:bg-sky-900 dark:text-sky-300",
    "offer" := "bg-green-100 text-green-800 dark:bg-green-900 dark:text-green-300",
    "hired" := "bg-emerald-100 text-emerald-800 dark:bg-emerald-900 dark:text-emerald-300",
    "rejected" := "bg-red-100 text-red-800 dark:bg-red-900 dark:text-red-300"]

  /** `getStageBadgeColor`: `colors[stage] || gray`, so the table's entry,
      the member for a name inherited from `Object.prototype`, or the gray
      default. */
  function StageBadgeColor(stage: string): (color: PropertyRead)
    ensures stage in StageColors ==> color == OwnText(StageColors[stage])
    ensures stage !in StageColors && stage in ObjectPrototypeNames ==> color == InheritedMember(stage)
    ensures stage !in StageColors && stage !in ObjectPrototypeNames ==> color == OwnText(GrayBadge)
  {
    ReadOr(StageColors, stage, GrayBadge)
  }

  /** The gray badge shows exactly for the stages the table does not list
      and that are not inherited names. */
  lemma StageBadgeGrayExactlyUnlisted(stage: string)
    ensures StageBadgeColor(stage) == OwnText(GrayBadge) <==>
            stage !in StageColors && stage !in ObjectPrototypeNames
  {
    if stage in StageColors {
      assert StageColors[stage] in StageColors.Values;
    }
  }
}
