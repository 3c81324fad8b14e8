/** The client-side store: the requisition and candidate collections, the
    navigation and modal cells, the actions that update them, and the views
    derived from them. */
module Store {
  import opened Common
  import opened Model
  import opened Stats
  import Kanban

  datatype View = Overview | KanbanView

  /** One row of the per-requisition statistics. */
  datatype RequisitionStatsEntry = RequisitionStatsEntry(requisition: Requisition, stats: RequisitionStats)

  /** The selected requisition's candidates, in store order; nothing when no
      requisition is selected. */
  function CandidatesByRequisition(candidates: seq<Candidate>, selected: Option<Requisition>): (r: seq<Candidate>)
    ensures selected.None? ==> r == []
    ensures IsSubsequence(r, candidates)
    ensures selected.Some? ==> forall c :: c in r <==> c in candidates && c.requisitionId == selected.value.id
  {
    if selected.None? then [] else Filter(candidates, ForRequisition(selected.value.id))
  }

  /** `updateCandidateAtom`'s map: every record with the update's id becomes
      the update. */
  function ReplaceById(candidates: seq<Candidate>, updated: Candidate): (r: seq<Candidate>)
    ensures |r| == |candidates|
    ensures forall i :: 0 <= i < |candidates| ==>
              r[i] == (if candidates[i].id == updated.id then updated else candidates[i])
  {
    seq(|candidates|, i requires 0 <= i < |candidates| =>
      if candidates[i].id == updated.id then updated else candidates[i])
  }

  /** Replacing by id keeps the id sequence, and replacing twice with the
      same record is replacing once. */
  lemma ReplaceByIdKeepsIds(candidates: seq<Candidate>, updated: Candidate)
    ensures CandidateIds(ReplaceById(candidates, updated)) == CandidateIds(candidates)
    ensures ReplaceById(ReplaceById(candidates, updated), updated) == ReplaceById(candidates, updated)
  {
  }

  /** The record `updateCandidatesAtom` keeps at one slot of the store: the
      first update with the same id, provided that update belongs to the
      selected requisition; the stored record otherwise. */
  function MergeOne(c: Candidate, updates: seq<Candidate>, selected: Option<Requisition>): (r: Candidate)
    ensures r.id == c.id
    ensures r == c || (r in updates && selected.Some? && r.requisitionId == selected.value.id)
    ensures (forall k :: 0 <= k < |updates| ==> updates[k].id != c.id) ==> r == c
    ensures forall k :: 0 <= k < |updates| && updates[k].id == c.id &&
                        (forall j :: 0 <= j < k ==> updates[j].id != c.id) ==>
              r == if selected.Some? && updates[k].requisitionId == selected.value.id then updates[k] else c
  {
    var u := Find(updates, HasId(c.id));
    var r := if u.Some? && selected.Some? && u.value.requisitionId == selected.value.id then u.value else c;
    assert forall k :: 0 <= k < |updates| && updates[k].id == c.id &&
                       (forall j :: 0 <= j < k ==> updates[j].id != c.id) ==>
             u == Some(updates[k]) by {
      forall k | 0 <= k < |updates| && updates[k].id == c.id &&
                 (forall j :: 0 <= j < k ==> updates[j].id != c.id)
        ensures u == Some(updates[k])
      {
        assert HasId(c.id)(updates[k]);
        assert FindIndex(updates, HasId(c.id)) == k;
      }
    }
    r
  }

  /** `updateCandidatesAtom`: a `map` over the whole store, so the store keeps
      its length and its order of ids whatever order the updates come in. */
  function MergeUpdates(all: seq<Candidate>, updates: seq<Candidate>, selected: Option<Requisition>): (r: seq<Candidate>)
    ensures |r| == |all| && CandidateIds(r) == CandidateIds(all)
    ensures forall i :: 0 <= i < |all| ==>
              r[i] == all[i] || (r[i] in updates && selected.Some? && r[i].requisitionId == selected.value.id)
    ensures forall i :: 0 <= i < |all| && (forall k :: 0 <= k < |updates| ==> updates[k].id != all[i].id)
              ==> r[i] == all[i]
    ensures NoDuplicates(CandidateIds(updates)) ==>
              forall i, k :: 0 <= i < |all| && 0 <= k < |updates| && updates[k].id == all[i].id ==>
                r[i] == if selected.Some? && updates[k].requisitionId == selected.value.id then updates[k] else all[i]
  {
    var r := seq(|all|, i requires 0 <= i < |all| => MergeOne(all[i], updates, selected));
    assert NoDuplicates(CandidateIds(updates)) ==>
             forall i, k :: 0 <= i < |all| && 0 <= k < |updates| && updates[k].id == all[i].id ==>
               r[i] == if selected.Some? && updates[k].requisitionId == selected.value.id then updates[k] else all[i] by {
      if NoDuplicates(CandidateIds(updates)) {
        forall i, k | 0 <= i < |all| && 0 <= k < |updates| && updates[k].id == all[i].id
          ensures r[i] == if selected.Some? && updates[k].requisitionId == selected.value.id then updates[k] else all[i]
        {
          FirstWithItsId(updates, k);
        }
      }
    }
    r
  }

  /** In a list with unique ids, no earlier record carries a record's id. */
  lemma FirstWithItsId(updates: seq<Candidate>, k: int)
    requires NoDuplicates(CandidateIds(updates)) && 0 <= k < |updates|
    ensures forall j :: 0 <= j < k ==> updates[j].id != updates[k].id
  {
    forall j | 0 <= j < k ensures updates[j].id != updates[k].id {
      assert CandidateIds(updates)[j] != CandidateIds(updates)[k];
    }
  }

  /** An update list whose records are all the stored ones leaves the store
      as it is. */
  lemma MergeOwnRecords(all: seq<Candidate>, selected: Option<Requisition>)
    requires NoDuplicates(CandidateIds(all))
    ensures MergeUpdates(all, all, selected) == all
  {
    forall i | 0 <= i < |all|
      ensures MergeOne(all[i], all, selected) == all[i]
    {
      var k := FindIndex(all, HasId(all[i].id));
      assert HasId(all[i].id)(all[i]);
      assert all[k].id == all[i].id;
      assert CandidateIds(all)[k] == CandidateIds(all)[i];
    }
  }

  /** With unique ids, looking a listed record up by its id finds it. */
  lemma FindById(s: seq<Candidate>, m: int)
    requires NoDuplicates(CandidateIds(s)) && 0 <= m < |s|
    ensures Find(s, HasId(s[m].id)) == Some(s[m])
  {
    var k := FindIndex(s, HasId(s[m].id));
    assert HasId(s[m].id)(s[m]);
    assert CandidateIds(s)[k] == CandidateIds(s)[m];
  }

  /** A stored record outside the selected requisition has no counterpart
      in a board list built from that requisition's records. */
  lemma NoUpdateOutsideSelection(all: seq<Candidate>, req: Requisition, out: seq<Candidate>, i: int)
    requires NoDuplicates(CandidateIds(all)) && 0 <= i < |all| && all[i].requisitionId != req.id
    requires CandidateIds(out) == CandidateIds(CandidatesByRequisition(all, Some(req)))
    ensures Find(out, HasId(all[i].id)).None?
  {
    var shown := CandidatesByRequisition(all, Some(req));
    var ids := CandidateIds(all);
    forall k | 0 <= k < |out| ensures !HasId(all[i].id)(out[k])
    {
      assert CandidateIds(out)[k] == CandidateIds(shown)[k];
      assert ForRequisition(req.id)(shown[k]);
      assert shown[k] in all;
      var m :| 0 <= m < |all| && all[m] == shown[k];
      assert ids[m] == out[k].id && m != i;
    }
  }

  /** A column drop on the board reaches the store: the dragged record is
      replaced by its moved version and every other record stays as it
      was. */
  lemma ColumnDropReachesStore(stages: seq<Stage>, all: seq<Candidate>, req: Requisition, j: int,
                               payload: Candidate, columnId: string, now: string)
    requires NoDuplicates(CandidateIds(all))
    requires 0 <= j < |all| && all[j].id == payload.id && all[j].requisitionId == req.id
    requires payload.currentStage != columnId
    ensures var shown := CandidatesByRequisition(all, Some(req));
            var out := Kanban.DropOverColumn(stages, shown, payload, columnId, now).value;
            var merged := MergeUpdates(all, out, Some(req));
            merged[j] == Kanban.Moved(stages, all[j], payload.currentStage, columnId, now) &&
            forall i :: 0 <= i < |all| && i != j ==> merged[i] == all[i]
  {
    var shown := CandidatesByRequisition(all, Some(req));
    var out := Kanban.DropOverColumn(stages, shown, payload, columnId, now).value;
    Kanban.FilterKeepsIdsUnique(all, ForRequisition(req.id));
    forall i | 0 <= i < |all|
      ensures MergeOne(all[i], out, Some(req))
           == if i == j then Kanban.Moved(stages, all[j], payload.currentStage, columnId, now) else all[i]
    {
      if all[i].requisitionId == req.id {
        ColumnDropMergesShown(stages, all, req, j, payload, columnId, now, i);
      } else {
        NoUpdateOutsideSelection(all, req, out, i);
      }
    }
  }

  /** One record of the shown requisition, merged back after a column drop. */
  lemma ColumnDropMergesShown(stages: seq<Stage>, all: seq<Candidate>, req: Requisition, j: int,
                              payload: Candidate, columnId: string, now: string, i: int)
    requires NoDuplicates(CandidateIds(all))
    requires 0 <= j < |all| && all[j].id == payload.id && all[j].requisitionId == req.id
    requires payload.currentStage != columnId
    requires 0 <= i < |all| && all[i].requisitionId == req.id
    ensures var shown := CandidatesByRequisition(all, Some(req));
            var out := Kanban.DropOverColumn(stages, shown, payload, columnId, now).value;
            MergeOne(all[i], out, Some(req))
              == if i == j then Kanban.Moved(stages, all[j], payload.currentStage, columnId, now) else all[i]
  {
    var shown := CandidatesByRequisition(all, Some(req));
    var out := Kanban.DropOverColumn(stages, shown, payload, columnId, now).value;
    var ids := CandidateIds(all);
    Kanban.FilterKeepsIdsUnique(all, ForRequisition(req.id));
    assert ForRequisition(req.id)(all[i]);
    assert all[i] in shown;
    var m :| 0 <= m < |shown| && shown[m] == all[i];
    assert CandidateIds(out)[m] == CandidateIds(shown)[m];
    FindById(out, m);
    if i != j {
      assert ids[i] != ids[j];
    }
  }

  /** The dashboard figures for every requisition, in requisition order. */
  method RequisitionStatsEntries(requisitions: seq<Requisition>, candidates: seq<Candidate>)
    returns (entries: seq<RequisitionStatsEntry>)
    ensures |entries| == |requisitions|
    ensures forall i :: 0 <= i < |requisitions| ==>
              var mine := Filter(candidates, ForRequisition(requisitions[i].id));
              entries[i].requisition == requisitions[i] &&
              entries[i].stats.totalCandidates == |mine| &&
              entries[i].stats.positionsToFill == requisitions[i].positionsToFill &&
              entries[i].stats.stages == StageCountsSpec(requisitions[i].hiringStages, mine)
  {
    entries := [];
    for n := 0 to |requisitions|
      invariant |entries| == n
      invariant forall i :: 0 <= i < n ==>
              var mine := Filter(candidates, ForRequisition(requisitions[i].id));
              entries[i].requisition == requisitions[i] &&
              entries[i].stats.totalCandidates == |mine| &&
              entries[i].stats.positionsToFill == requisitions[i].positionsToFill &&
              entries[i].stats.stages == StageCountsSpec(requisitions[i].hiringStages, mine)
    {
      var requisition := requisitions[n];
      var mine := Filter(candidates, ForRequisition(requisition.id));
      var stages := CountStages(requisition.hiringStages, mine);
      entries := entries + [RequisitionStatsEntry(requisition,
                   RequisitionStats(|mine|, requisition.positionsToFill, stages))];
    }
  }

  class Store {
    var requisitions: seq<Requisition>
    var candidates: seq<Candidate>
    var currentView: View
    var selectedRequisition: Option<Requisition>
    var selectedCandidate: Option<Candidate>
    var candidateModalOpen: bool
    var addRequisitionModalOpen: bool
    var addCandidateModalOpen: bool
    var selectedRequisitionForAdd: Option<Requisition>

    /** The navigation and modal cells move together: the board is shown
        exactly when a requisition is selected, the candidate modal is open
        exactly when a candidate is selected, and the add-candidate modal is
        open exactly when it has a requisition to add to. */
    predicate Valid()
      reads this
    {
      (currentView == KanbanView <==> selectedRequisition.Some?) &&
      (candidateModalOpen <==> selectedCandidate.Some?) &&
      (addCandidateModalOpen <==> selectedRequisitionForAdd.Some?)
    }

    /** The cells' initial values over the given collections. */
    constructor(requisitions: seq<Requisition>, candidates: seq<Candidate>)
      ensures Valid()
      ensures this.requisitions == requisitions && this.candidates == candidates
      ensures currentView == Overview && selectedRequisition.None? && selectedCandidate.None?
      ensures !candidateModalOpen && !addRequisitionModalOpen && !addCandidateModalOpen
      ensures selectedRequisitionForAdd.None?
    {
      this.requisitions := requisitions;
      this.candidates := candidates;
      currentView := Overview;
      selectedRequisition := None;
      selectedCandidate := None;
      candidateModalOpen := false;
      addRequisitionModalOpen := false;
      addCandidateModalOpen := false;
      selectedRequisitionForAdd := None;
    }

    method AddRequisition(requisition: Requisition)
      modifies this`requisitions
      ensures requisitions == old(requisitions) + [requisition]
    {
      requisitions := requisitions + [requisition];
    }

    method AddCandidate(candidate: Candidate)
      modifies this`candidates
      ensures candidates == old(candidates) + [candidate]
    {
      candidates := candidates + [candidate];
    }

    method UpdateCandidate(updated: Candidate)
      modifies this`candidates
      ensures candidates == ReplaceById(old(candidates), updated)
    {
      candidates := ReplaceById(candidates, updated);
    }

    method UpdateCandidates(updates: seq<Candidate>)
      modifies this`candidates
      ensures candidates == MergeUpdates(old(candidates), updates, selectedRequisition)
    {
      candidates := MergeUpdates(candidates, updates, selectedRequisition);
    }

    method SelectRequisition(requisition: Requisition)
      requires Valid()
      modifies this`selectedRequisition, this`currentView
      ensures Valid()
      ensures selectedRequisition == Some(requisition) && currentView == KanbanView
    {
      selectedRequisition := Some(requisition);
      currentView := KanbanView;
    }

    method BackToOverview()
      requires Valid()
      modifies this`selectedRequisition, this`currentView
      ensures Valid()
      ensures selectedRequisition.None? && currentView == Overview
    {
      currentView := Overview;
      selectedRequisition := None;
    }

    method OpenCandidateModal(candidate: Candidate)
      requires Valid()
      modifies this`selectedCandidate, this`candidateModalOpen
      ensures Valid()
      ensures selectedCandidate == Some(candidate) && candidateModalOpen
    {
      selectedCandidate := Some(candidate);
      candidateModalOpen := true;
    }

    method CloseCandidateModal()
      requires Valid()
      modifies this`selectedCandidate, this`candidateModalOpen
      ensures Valid()
      ensures selectedCandidate.None? && !candidateModalOpen
    {
      candidateModalOpen := false;
      selectedCandidate := None;
    }

    method OpenAddRequisitionModal()
      modifies this`addRequisitionModalOpen
      ensures addRequisitionModalOpen
    {
      addRequisitionModalOpen := true;
    }

    method CloseAddRequisitionModal()
      modifies this`addRequisitionModalOpen
      ensures !addRequisitionModalOpen
    {
      addRequisitionModalOpen := false;
    }

    method OpenAddCandidateModal(requisition: Requisition)
      requires Valid()
      modifies this`selectedRequisitionForAdd, this`addCandidateModalOpen
      ensures Valid()
      ensures selectedRequisitionForAdd == Some(requisition) && addCandidateModalOpen
    {
      selectedRequisitionForAdd := Some(requisition);
      addCandidateModalOpen := true;
    }

    method CloseAddCandidateModal()
      requires Valid()
      modifies this`selectedRequisitionForAdd, this`addCandidateModalOpen
      ensures Valid()
      ensures selectedRequisitionForAdd.None? && !addCandidateModalOpen
    {
      addCandidateModalOpen := false;
      selectedRequisitionForAdd := None;
    }

    /** `candidatesByRequisitionAtom` over the current cells. */
    function SelectedCandidates(): (r: seq<Candidate>)
      reads this
      ensures r == CandidatesByRequisition(candidates, selectedRequisition)
    {
      CandidatesByRequisition(candidates, selectedRequisition)
    }

    /** `candidateStatsAtom` over the current cells. */
    function Stats(): (r: CandidateStats)
      reads this
      ensures r == CandidateStatsOf(candidates)
      ensures r.totalCandidates == |candidates|
      ensures r.inInterview == |Filter(candidates, InInterview())|
      ensures r.offersExtended == |Filter(candidates, AtStage("offer"))|
      ensures r.hired == |Filter(candidates, AtStage("hired"))|
      ensures r.inInterview + r.offersExtended + r.hired <= r.totalCandidates
    {
      CandidateStatsOf(candidates)
    }

    /** `requisitionStatsAtom` over the current cells. */
    method RequisitionStats() returns (entries: seq<RequisitionStatsEntry>)
      ensures |entries| == |requisitions|
      ensures forall i :: 0 <= i < |requisitions| ==>
                var mine := Filter(candidates, ForRequisition(requisitions[i].id));
                entries[i].requisition == requisitions[i] &&
                entries[i].stats.totalCandidates == |mine| &&
                entries[i].stats.positionsToFill == requisitions[i].positionsToFill &&
                entries[i].stats.stages == StageCountsSpec(requisitions[i].hiringStages, mine)
    {
      entries := RequisitionStatsEntries(requisitions, candidates);
    }
  }
}
