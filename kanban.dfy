/** The board's drag-and-drop reducers: the rule deciding whether a stage
    move records an interview, the drop of a card onto a column, and the drop
    of a card onto another card's slot. The drag payload arrives already
    decoded as a `Candidate`; its stage and (for card drops) its interviews
    are the ones the reducers read. */
module Kanban {
  import opened Common
  import opened Model
  import Stats

  const Terminal: seq<string> := ["rejected", "hired"]

  /** `existingInterviews.some(i => i.type === stageId)`. */
  predicate HasInterviewFor(existing: seq<Interview>, stageId: string)
  {
    exists k :: 0 <= k < |existing| && existing[k].kind == stageId
  }

  /** `shouldCreateInterview`: no second interview for a stage; otherwise a
      move further along the pipeline (by `indexOf` position) records one,
      and so does any move to a terminal stage. */
  function ShouldCreateInterview(stages: seq<Stage>, currentStageId: string, newStageId: string,
                                 existing: seq<Interview>): (r: bool)
    ensures r ==> !HasInterviewFor(existing, newStageId)
    ensures r ==> newStageId in Terminal || (newStageId in StageIds(stages) && newStageId != currentStageId)
    ensures !HasInterviewFor(existing, newStageId) && newStageId in Terminal ==> r
  {
    var stageIds := StageIds(stages);
    var currentIndex := IndexOf(stageIds, currentStageId);
    var newIndex := IndexOf(stageIds, newStageId);
    if HasInterviewFor(existing, newStageId) then false
    else if newIndex > currentIndex then true
    else if newStageId in Terminal then true
    else false
  }

  /** An interview for the destination stage already on record always
      suppresses a new one, whatever the direction of the move. */
  lemma NoSecondInterview(stages: seq<Stage>, currentStageId: string, newStageId: string, existing: seq<Interview>)
    requires HasInterviewFor(existing, newStageId)
    ensures !ShouldCreateInterview(stages, currentStageId, newStageId, existing)
  {
  }

  /** With unique stage ids, moving from position `i` to a later position
      `j` records an interview unless one exists. */
  lemma ForwardMoveCreates(stages: seq<Stage>, i: int, j: int, existing: seq<Interview>)
    requires NoDuplicates(StageIds(stages))
    requires 0 <= i < j < |stages|
    requires !HasInterviewFor(existing, stages[j].id)
    ensures ShouldCreateInterview(stages, stages[i].id, stages[j].id, existing)
  {
    IndexOfUnique(StageIds(stages), i);
    IndexOfUnique(StageIds(stages), j);
  }

  /** A source stage missing from the pipeline has index -1, so a move to
      any declared stage counts as forward. */
  lemma UnknownSourceCountsAsForward(stages: seq<Stage>, currentStageId: string, newStageId: string,
                                     existing: seq<Interview>)
    requires currentStageId !in StageIds(stages) && newStageId in StageIds(stages)
    requires !HasInterviewFor(existing, newStageId)
    ensures ShouldCreateInterview(stages, currentStageId, newStageId, existing)
  {
  }

  /** A move to `rejected` or `hired` records an interview from any stage,
      unless one exists. */
  lemma TerminalMoveCreates(stages: seq<Stage>, currentStageId: string, newStageId: string,
                            existing: seq<Interview>)
    requires newStageId == "rejected" || newStageId == "hired"
    requires !HasInterviewFor(existing, newStageId)
    ensures ShouldCreateInterview(stages, currentStageId, newStageId, existing)
  {
  }

  /** With unique stage ids, a move back (or in place) to a non-terminal
      stage never records an interview. */
  lemma BackwardMoveSkips(stages: seq<Stage>, i: int, j: int, existing: seq<Interview>)
    requires NoDuplicates(StageIds(stages))
    requires 0 <= j <= i < |stages|
    requires stages[j].id != "rejected" && stages[j].id != "hired"
    ensures !ShouldCreateInterview(stages, stages[i].id, stages[j].id, existing)
  {
    IndexOfUnique(StageIds(stages), i);
    IndexOfUnique(StageIds(stages), j);
  }

  /** The automatic record a move adds: stamped with the move time, typed
      with the destination stage, interviewer "System", neutral rating 3, and
      feedback naming the destination by its display name (its id when the
      stage is undeclared or unnamed). */
  function SystemInterview(stages: seq<Stage>, stageId: string, now: string): (r: Interview)
    ensures r.date == now && r.kind == stageId && r.interviewer == "System" && r.rating == 3
  {
    var newStage := Find(stages, StageHasId(stageId));
    var shown := if newStage.Some? && newStage.value.name != "" then newStage.value.name else stageId;
    Interview(now, stageId, "System", 3, "Candidate moved to " + shown + " stage")
  }

  /** The feedback names a declared stage by its display name. */
  lemma SystemInterviewNamesStage(stages: seq<Stage>, k: int, now: string)
    requires NoDuplicates(StageIds(stages)) && 0 <= k < |stages| && stages[k].name != ""
    ensures SystemInterview(stages, stages[k].id, now).feedback == "Candidate moved to " + stages[k].name + " stage"
  {
    var ids := StageIds(stages);
    assert ids[k] == stages[k].id;
  }

  /** `c` moved from `fromStage` to `toStage` at time `now`: the new stage and
      timestamp, and an automatic interview appended when the stage really
      changes and `ShouldCreateInterview` allows it. */
  function Moved(stages: seq<Stage>, c: Candidate, fromStage: string, toStage: string, now: string): (r: Candidate)
    ensures r.currentStage == toStage && r.updatedAt == now
    ensures r.(currentStage := c.currentStage, interviews := c.interviews, updatedAt := c.updatedAt) == c
    ensures fromStage != toStage && ShouldCreateInterview(stages, fromStage, toStage, c.interviews) ==>
              r.interviews == c.interviews + [SystemInterview(stages, toStage, now)]
    ensures !(fromStage != toStage && ShouldCreateInterview(stages, fromStage, toStage, c.interviews)) ==>
              r.interviews == c.interviews
  {
    var base := c.(currentStage := toStage, updatedAt := now);
    if fromStage != toStage && ShouldCreateInterview(stages, fromStage, toStage, c.interviews) then
      base.(interviews := c.interviews + [SystemInterview(stages, toStage, now)])
    else
      base
  }

  // ---------------------------------------------------------------------
  // Drop onto a column
  // ---------------------------------------------------------------------

  /** `handleDropOverColumn`: `None` when the payload already sits at the
      column (nothing is sent to the store); otherwise the list with every
      record carrying the payload's id moved to the column. The interview
      check reads the listed record's interviews but the payload's stage. */
  function DropOverColumn(stages: seq<Stage>, candidates: seq<Candidate>, payload: Candidate,
                          columnId: string, now: string): (r: Option<seq<Candidate>>)
    ensures r.None? <==> payload.currentStage == columnId
    ensures r.Some? ==> |r.value| == |candidates| && CandidateIds(r.value) == CandidateIds(candidates)
    ensures r.Some? ==> forall i :: 0 <= i < |candidates| && candidates[i].id != payload.id
                          ==> r.value[i] == candidates[i]
    ensures r.Some? ==> forall i :: 0 <= i < |candidates| && candidates[i].id == payload.id
                          ==> r.value[i] == Moved(stages, candidates[i], payload.currentStage, columnId, now)
  {
    if payload.currentStage == columnId then None
    else
      var out := seq(|candidates|, i requires 0 <= i < |candidates| =>
        if candidates[i].id == payload.id then Moved(stages, candidates[i], payload.currentStage, columnId, now)
        else candidates[i]);
      assert CandidateIds(out) == CandidateIds(candidates);
      Some(out)
  }

  /** The interview types of a candidate are pairwise distinct. */
  predicate InterviewKindsUnique(c: Candidate)
  {
    forall a, b :: 0 <= a < b < |c.interviews| ==> c.interviews[a].kind != c.interviews[b].kind
  }

  /** A move never records a second interview for a stage. */
  lemma MovedKeepsKindsUnique(stages: seq<Stage>, c: Candidate, fromStage: string, toStage: string, now: string)
    requires InterviewKindsUnique(c)
    ensures InterviewKindsUnique(Moved(stages, c, fromStage, toStage, now))
  {
    var r := Moved(stages, c, fromStage, toStage, now);
    if r.interviews != c.interviews {
      var n := |c.interviews|;
      forall a, b | 0 <= a < b < |r.interviews|
        ensures r.interviews[a].kind != r.interviews[b].kind
      {
        if b == n {
          assert r.interviews[b].kind == toStage;
          assert !HasInterviewFor(c.interviews, toStage);
          assert r.interviews[a] == c.interviews[a];
        }
      }
    }
  }

  /** A column drop keeps every candidate's interview types distinct. */
  lemma DropOverColumnKeepsKindsUnique(stages: seq<Stage>, candidates: seq<Candidate>, payload: Candidate,
                                       columnId: string, now: string)
    requires forall i :: 0 <= i < |candidates| ==> InterviewKindsUnique(candidates[i])
    ensures var r := DropOverColumn(stages, candidates, payload, columnId, now);
            r.Some? ==> forall i :: 0 <= i < |r.value| ==> InterviewKindsUnique(r.value[i])
  {
    var r := DropOverColumn(stages, candidates, payload, columnId, now);
    if r.Some? {
      forall i | 0 <= i < |r.value|
        ensures InterviewKindsUnique(r.value[i])
      {
        if candidates[i].id == payload.id {
          MovedKeepsKindsUnique(stages, candidates[i], payload.currentStage, columnId, now);
        }
      }
    }
  }

  /** Dropping the same card on the same column a second time changes
      nothing: the payload now sits at that column. */
  lemma DropOverColumnTwiceIsNoOp(stages: seq<Stage>, candidates: seq<Candidate>, payload: Candidate,
                                  columnId: string, now: string, later: string)
    ensures DropOverColumn(stages, candidates, Moved(stages, payload, payload.currentStage, columnId, now),
                           columnId, later).None?
  {
  }

  // ---------------------------------------------------------------------
  // Drop onto a card
  // ---------------------------------------------------------------------

  /** The index at which `handleDropOverListItem` splices the moved card into
      the list without it: the target's slot for "top", the next one
      otherwise. */
  function InsertIndex(rest: seq<Candidate>, targetId: string, direction: string): int
  {
    var targetIndex := FindIndex(rest, HasId(targetId));
    if direction == "top" then targetIndex else targetIndex + 1
  }

  /** The target named by the drop, when it is listed and is not the
      dragged card itself, is still listed once the dragged card is removed. */
  lemma TargetSurvivesRemoval(candidates: seq<Candidate>, payload: Candidate, targetId: string)
    requires Find(candidates, HasId(targetId)).Some? && payload.id != targetId
    ensures FindIndex(Filter(candidates, NotId(payload.id)), HasId(targetId)) != -1
  {
    var target := Find(candidates, HasId(targetId)).value;
    var rest := Filter(candidates, NotId(payload.id));
    assert NotId(payload.id)(target);
    assert target in rest;
    var k :| 0 <= k < |rest| && rest[k] == target;
    assert HasId(targetId)(rest[k]);
  }

  /** The list a drop onto a card produces: `None` (no store update) when
      the target is the dragged card or is not listed; otherwise the list
      without the dragged card, with the card moved to the target's stage
      spliced in at `InsertIndex`. */
  function ListDrop(stages: seq<Stage>, candidates: seq<Candidate>, payload: Candidate,
                    direction: string, targetId: string, now: string): (r: Option<seq<Candidate>>)
    ensures r.None? <==> payload.id == targetId || forall i :: 0 <= i < |candidates| ==> candidates[i].id != targetId
  {
    var found := Find(candidates, HasId(targetId));
    if found.None? || payload.id == targetId then None
    else
      var rest := Filter(candidates, NotId(payload.id));
      TargetSurvivesRemoval(candidates, payload, targetId);
      var slot := InsertIndex(rest, targetId, direction);
      Some(rest[..slot] + [Moved(stages, payload, payload.currentStage, found.value.currentStage, now)] + rest[slot..])
  }

  /** A drop onto a card: the moved card takes the target's stage and lands
      directly before the target ("top") or directly after it (any other
      direction), and the other cards keep their relative order. */
  lemma ListDropPlacesNextToTarget(stages: seq<Stage>, candidates: seq<Candidate>, payload: Candidate,
                                   direction: string, targetId: string, now: string)
    requires ListDrop(stages, candidates, payload, direction, targetId, now).Some?
    ensures var out := ListDrop(stages, candidates, payload, direction, targetId, now).value;
            var target := Find(candidates, HasId(targetId)).value;
            var slot := InsertIndex(Filter(candidates, NotId(payload.id)), targetId, direction);
            0 <= slot < |out| &&
            out[slot] == Moved(stages, payload, payload.currentStage, target.currentStage, now) &&
            out[slot].currentStage == target.currentStage &&
            (direction == "top" ==> slot + 1 < |out| && out[slot + 1].id == targetId) &&
            (direction != "top" ==> 0 < slot && out[slot - 1].id == targetId) &&
            Filter(out, NotId(payload.id)) == Filter(candidates, NotId(payload.id))
  {
    var target := Find(candidates, HasId(targetId)).value;
    var rest := Filter(candidates, NotId(payload.id));
    TargetSurvivesRemoval(candidates, payload, targetId);
    var moved := Moved(stages, payload, payload.currentStage, target.currentStage, now);
    RestLacksId(candidates, payload.id);
    SpliceNextTo(rest, targetId, direction, moved);
  }

  lemma RestLacksId(candidates: seq<Candidate>, id: string)
    ensures forall i :: 0 <= i < |Filter(candidates, NotId(id))| ==> Filter(candidates, NotId(id))[i].id != id
  {
    var rest := Filter(candidates, NotId(id));
    forall i | 0 <= i < |rest| ensures rest[i].id != id {
      assert NotId(id)(rest[i]);
    }
  }

  /** Splicing a card next to a listed target, as the card drop does. */
  lemma SpliceNextTo(rest: seq<Candidate>, targetId: string, direction: string, moved: Candidate)
    requires FindIndex(rest, HasId(targetId)) != -1
    requires forall i :: 0 <= i < |rest| ==> rest[i].id != moved.id
    ensures var slot := InsertIndex(rest, targetId, direction);
            var out := rest[..slot] + [moved] + rest[slot..];
            0 <= slot < |out| && out[slot] == moved &&
            (direction == "top" ==> slot + 1 < |out| && out[slot + 1].id == targetId) &&
            (direction != "top" ==> 0 < slot && out[slot - 1].id == targetId) &&
            Filter(out, NotId(moved.id)) == rest
  {
    var k := FindIndex(rest, HasId(targetId));
    var slot := InsertIndex(rest, targetId, direction);
    SpliceFilter(rest, slot, moved, moved.id);
    assert HasId(targetId)(rest[k]);
    SplicePositions(rest, k, slot, moved);
  }

  /** Where the spliced card and its neighbour sit after the splice. */
  lemma SplicePositions(rest: seq<Candidate>, k: int, slot: int, moved: Candidate)
    requires 0 <= k < |rest| && (slot == k || slot == k + 1)
    ensures var out := rest[..slot] + [moved] + rest[slot..];
            |out| == |rest| + 1 && out[slot] == moved &&
            (slot == k ==> out[slot + 1] == rest[k]) &&
            (slot == k + 1 ==> out[slot - 1] == rest[k])
  {
  }

  /** `handleDropOverListItem`, step by step: find the target, copy the list
      without the dragged card, locate the target in the copy, build the
      updated card (adding the automatic interview when the stage changes and
      the rule allows it), and splice it in. */
  method DropOverListItem(stages: seq<Stage>, candidates: seq<Candidate>, payload: Candidate,
                          direction: string, targetId: string, now: string)
    returns (r: Option<seq<Candidate>>)
    ensures r == ListDrop(stages, candidates, payload, direction, targetId, now)
  {
    var found := Find(candidates, HasId(targetId));
    if found.None? || payload.id == targetId {
      return None;
    }
    var target := found.value;
    var filtered := Filter(candidates, NotId(payload.id));
    TargetSurvivesRemoval(candidates, payload, targetId);
    var targetIndex := FindIndex(filtered, HasId(targetId));
    var insertIndex := if direction == "top" then targetIndex else targetIndex + 1;
    var updated := payload.(currentStage := target.currentStage, updatedAt := now);
    if payload.currentStage != target.currentStage
       && ShouldCreateInterview(stages, payload.currentStage, target.currentStage, payload.interviews) {
      updated := updated.(interviews := payload.interviews + [SystemInterview(stages, target.currentStage, now)]);
    }
    assert updated == Moved(stages, payload, payload.currentStage, target.currentStage, now);
    var newCandidates := filtered[..insertIndex] + [updated] + filtered[insertIndex..];
    r := Some(newCandidates);
  }

  /** Every card of `rest` passes the removal test. */
  lemma AllKept(rest: seq<Candidate>, id: string)
    requires forall i :: 0 <= i < |rest| ==> rest[i].id != id
    ensures Filter(rest, NotId(id)) == rest
  {
    FilterKeepsAll(rest, NotId(id));
  }

  /** Removing the moved card's id again from the spliced list gives back
      the list it was spliced into. */
  lemma SpliceFilter(rest: seq<Candidate>, k: int, moved: Candidate, id: string)
    requires 0 <= k <= |rest| && moved.id == id
    requires forall i :: 0 <= i < |rest| ==> rest[i].id != id
    ensures Filter(rest[..k] + [moved] + rest[k..], NotId(id)) == rest
  {
    var a, b := rest[..k], rest[k..];
    SlicesKept(rest, k, id);
    FilterSkip(a, moved, b, NotId(id));
    assert a + b == rest;
  }

  /** Both halves of a list without the id pass the removal test whole. */
  lemma SlicesKept(rest: seq<Candidate>, k: int, id: string)
    requires 0 <= k <= |rest|
    requires forall i :: 0 <= i < |rest| ==> rest[i].id != id
    ensures Filter(rest[..k], NotId(id)) == rest[..k]
    ensures Filter(rest[k..], NotId(id)) == rest[k..]
  {
    var a, b := rest[..k], rest[k..];
    forall i | 0 <= i < |a| ensures a[i].id != id { assert a[i] == rest[i]; }
    forall i | 0 <= i < |b| ensures b[i].id != id { assert b[i] == rest[k + i]; }
    AllKept(a, id);
    AllKept(b, id);
  }

  /** Removing a card whose id occurs exactly once shortens the list by one. */
  lemma {:induction false} RemoveOneId(candidates: seq<Candidate>, id: string)
    requires NoDuplicates(CandidateIds(candidates)) && id in CandidateIds(candidates)
    ensures |Filter(candidates, NotId(id))| == |candidates| - 1
    decreases |candidates|
  {
    var ids := CandidateIds(candidates);
    var tail := candidates[1..];
    assert CandidateIds(tail) == ids[1..];
    if candidates[0].id == id {
      assert forall i :: 0 <= i < |tail| ==> tail[i].id != id by {
        forall i | 0 <= i < |tail| ensures tail[i].id != id {
          assert ids[0] != ids[i + 1];
        }
      }
      AllKept(tail, id);
    } else {
      RemoveOneId(tail, id);
    }
  }

  /** Filtering keeps the ids of a duplicate-free list duplicate-free. */
  lemma {:induction false} FilterKeepsIdsUnique(candidates: seq<Candidate>, p: Candidate -> bool)
    requires NoDuplicates(CandidateIds(candidates))
    ensures NoDuplicates(CandidateIds(Filter(candidates, p)))
    decreases |candidates|
  {
    if candidates != [] {
      var c0, tail := candidates[0], candidates[1..];
      var ids := CandidateIds(candidates);
      assert CandidateIds(tail) == ids[1..];
      FilterKeepsIdsUnique(tail, p);
      var f := Filter(tail, p);
      if p(c0) {
        assert c0.id !in CandidateIds(f) by {
          forall j | 0 <= j < |f| ensures f[j].id != c0.id {
            assert f[j] in tail;
            var m :| 0 <= m < |tail| && tail[m] == f[j];
            assert ids[m + 1] == f[j].id;
          }
        }
        assert CandidateIds([c0] + f) == [c0.id] + CandidateIds(f);
        NoDuplicatesCons(c0.id, CandidateIds(f));
      }
    }
  }

  /** Removing a card listed once and inserting a card with its id keeps the
      number of cards and the uniqueness of ids. */
  lemma ReinsertKeepsIds(candidates: seq<Candidate>, k: int, moved: Candidate)
    requires NoDuplicates(CandidateIds(candidates)) && moved.id in CandidateIds(candidates)
    requires 0 <= k <= |Filter(candidates, NotId(moved.id))|
    ensures var rest := Filter(candidates, NotId(moved.id));
            var out := rest[..k] + [moved] + rest[k..];
            |out| == |candidates| && NoDuplicates(CandidateIds(out))
  {
    var rest := Filter(candidates, NotId(moved.id));
    RemoveOneId(candidates, moved.id);
    FilterKeepsIdsUnique(candidates, NotId(moved.id));
    RestLacksId(candidates, moved.id);
    var restIds := CandidateIds(rest);
    assert moved.id !in restIds;
    NoDuplicatesInsert(restIds, k, moved.id);
    CandidateIdsSplice(rest, k, moved);
  }

  /** The ids of a spliced list are the spliced ids. */
  lemma CandidateIdsSplice(rest: seq<Candidate>, k: int, moved: Candidate)
    requires 0 <= k <= |rest|
    ensures CandidateIds(rest[..k] + [moved] + rest[k..]) ==
            CandidateIds(rest)[..k] + [moved.id] + CandidateIds(rest)[k..]
  {
    var out := rest[..k] + [moved] + rest[k..];
    var ids := CandidateIds(rest);
    var spliced := ids[..k] + [moved.id] + ids[k..];
    forall i | 0 <= i < |out|
      ensures CandidateIds(out)[i] == spliced[i]
    {
      if i < k {
        assert out[i] == rest[i];
      } else if i > k {
        assert out[i] == rest[i - 1];
      }
    }
  }

  /** When the dragged card is listed once and ids are unique, a drop onto a
      card keeps the number of cards and never duplicates an id. */
  lemma ListDropKeepsIds(stages: seq<Stage>, candidates: seq<Candidate>, payload: Candidate,
                         direction: string, targetId: string, now: string)
    requires NoDuplicates(CandidateIds(candidates)) && payload.id in CandidateIds(candidates)
    requires ListDrop(stages, candidates, payload, direction, targetId, now).Some?
    ensures var out := ListDrop(stages, candidates, payload, direction, targetId, now).value;
            |out| == |candidates| && NoDuplicates(CandidateIds(out))
  {
    var target := Find(candidates, HasId(targetId)).value;
    var rest := Filter(candidates, NotId(payload.id));
    TargetSurvivesRemoval(candidates, payload, targetId);
    var k := InsertIndex(rest, targetId, direction);
    var moved := Moved(stages, payload, payload.currentStage, target.currentStage, now);
    ReinsertKeepsIds(candidates, k, moved);
  }

  // ---------------------------------------------------------------------
  // Column counts
  // ---------------------------------------------------------------------

  /** The badge on a column header: how many listed cards sit at that stage. */
  function ColumnCount(candidates: seq<Candidate>, stageId: string): (n: nat)
    ensures n <= |candidates|
    ensures n == 0 <==> forall i :: 0 <= i < |candidates| ==> candidates[i].currentStage != stageId
  {
    var column := Filter(candidates, AtStage(stageId));
    assert column != [] ==> column[0] in candidates;
    assert forall i :: 0 <= i < |candidates| && candidates[i].currentStage == stageId ==> candidates[i] in column;
    |column|
  }

  /** The badges of all columns of a board, keyed by stage id. */
  function ColumnCounts(stages: seq<Stage>, candidates: seq<Candidate>): (r: map<string, nat>)
    ensures forall i :: 0 <= i < |stages| ==> stages[i].id in r
    ensures forall id :: id in r ==> id in StageIds(stages) && r[id] <= |candidates|
  {
    map id | id in StageIds(stages) :: ColumnCount(candidates, id)
  }

  /** Each column badge is the dashboard's count for that stage on every
      board, and on a board whose cards all sit at its declared, distinct
      stages the badges add up to the number of cards. */
  lemma ColumnCountsAddUp(stages: seq<Stage>, candidates: seq<Candidate>)
    ensures ColumnCounts(stages, candidates) == Stats.StageCountsSpec(stages, candidates)
    ensures NoDuplicates(StageIds(stages))
            && (forall i :: 0 <= i < |candidates| ==> candidates[i].currentStage in StageIds(stages))
            ==> Stats.SumOver(StageIds(stages), ColumnCounts(stages, candidates)) == |candidates|
  {
    ColumnCountsAreStageCounts(stages, candidates);
    if NoDuplicates(StageIds(stages))
       && (forall i :: 0 <= i < |candidates| ==> candidates[i].currentStage in StageIds(stages)) {
      Stats.StageCountsSumToTotal(stages, candidates);
    }
  }

  /** Badge by badge, the board's counts are the dashboard's counts. */
  lemma ColumnCountsAreStageCounts(stages: seq<Stage>, candidates: seq<Candidate>)
    ensures ColumnCounts(stages, candidates) == Stats.StageCountsSpec(stages, candidates)
  {
    forall id | id in StageIds(stages)
      ensures ColumnCount(candidates, id) == |Filter(candidates, AtStage(id))|
    {
    }
  }

  // ---------------------------------------------------------------------
  // Worked scenarios
  // ---------------------------------------------------------------------

  const ScenarioStages: seq<Stage> := [
    Stage("applied", "Applied", ""), Stage("screening", "Screening", ""),
    Stage("technical_interview", "Technical Interview", ""), Stage("offer", "Offer", ""),
    Stage("hired", "Hired", ""), Stage("rejected", "Rejected", "")]

  /** A card at "applied" with no interviews, dropped on the
      "technical_interview" column, moves there with exactly one interview of
      that type. */
  lemma ScenarioForwardColumnDrop(x: Candidate, now: string)
    requires x.currentStage == "applied" && x.interviews == []
    ensures var r := DropOverColumn(ScenarioStages, [x], x, "technical_interview", now);
            r.Some? && |r.value| == 1 &&
            r.value[0].currentStage == "technical_interview" &&
            |r.value[0].interviews| == 1 && r.value[0].interviews[0].kind == "technical_interview"
  {
    ForwardMoveCreates(ScenarioStages, 0, 2, []);
    assert StageIds(ScenarioStages) == ["applied", "screening", "technical_interview", "offer", "hired", "rejected"];
  }

  /** Dropping it back on "applied" moves it without a new interview. */
  lemma ScenarioBackwardColumnDrop(x: Candidate, now: string)
    requires x.currentStage == "technical_interview" && |x.interviews| == 1
    requires x.interviews[0].kind == "technical_interview"
    ensures var r := DropOverColumn(ScenarioStages, [x], x, "applied", now);
            r.Some? && r.value[0].currentStage == "applied" && r.value[0].interviews == x.interviews
  {
    assert StageIds(ScenarioStages) == ["applied", "screening", "technical_interview", "offer", "hired", "rejected"];
    BackwardMoveSkips(ScenarioStages, 2, 0, x.interviews);
  }

  /** A card at "screening" dropped below a card at "offer" lands right after
      it, at "offer", with an "offer" interview appended. */
  lemma ScenarioDropBelowCard(y: Candidate, z: Candidate, now: string)
    requires y.id != z.id && y.currentStage == "screening" && z.currentStage == "offer"
    requires !HasInterviewFor(y.interviews, "offer")
    ensures var r := ListDrop(ScenarioStages, [z, y], y, "bottom", z.id, now);
            r.Some? && r.value[0] == z && r.value[1].id == y.id &&
            r.value[1].currentStage == "offer" &&
            r.value[1].interviews == y.interviews + [SystemInterview(ScenarioStages, "offer", now)]
  {
    assert StageIds(ScenarioStages) == ["applied", "screening", "technical_interview", "offer", "hired", "rejected"];
    ForwardMoveCreates(ScenarioStages, 1, 3, y.interviews);
    DropBelowFirst(ScenarioStages, z, y, "bottom", now);
  }

  /** Dropping the second of two cards below the first keeps the order and
      moves the card to the first one's stage. */
  lemma DropBelowFirst(stages: seq<Stage>, z: Candidate, y: Candidate, direction: string, now: string)
    requires y.id != z.id && direction != "top"
    ensures ListDrop(stages, [z, y], y, direction, z.id, now) ==
            Some([z, Moved(stages, y, y.currentStage, z.currentStage, now)])
  {
    var rest := Filter([z, y], NotId(y.id));
    assert [z, y][1..] == [y];
    assert Filter([y], NotId(y.id)) == [] by { assert [y][1..] == []; }
    assert rest == [z];
    assert Find([z, y], HasId(z.id)) == Some(z);
    assert FindIndex(rest, HasId(z.id)) == 0;
    var m := Moved(stages, y, y.currentStage, z.currentStage, now);
    assert rest[..1] + [m] + rest[1..] == [z, m];
  }
}
