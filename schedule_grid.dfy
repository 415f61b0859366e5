/** The timetable grid: the enriched lookup of a cell, the drop reconciler
    that turns a forwarded drop into create, update and delete calls on the
    store, and the drop-list ids that scope a drag session. */
module ScheduleGrid {
  import opened ScheduleModels
  import opened ArrayOps
  import opened DragDrop
  import opened TimeSlotCell
  import opened ScheduleStore

  // ---------------------------------------------------------------------
  // Enriched lookup
  // ---------------------------------------------------------------------

  /** `d.id === id` */
  function DisciplineHasId(id: string): Discipline -> bool
  {
    (d: Discipline) => d.id == id
  }

  /** `ids.includes(p.id)` */
  function ProfessorListed(ids: seq<string>): Professor -> bool
  {
    (p: Professor) => p.id in ids
  }

  /** A record with its discipline and professors resolved from the reference tables. */
  function Enriched(a: Allocation, data: ScheduleGridData): (e: Allocation)
    ensures e.(discipline := a.discipline, professors := a.professors) == a
    ensures e.discipline.None? <==> forall k :: 0 <= k < |data.disciplines| ==> data.disciplines[k].id != a.disciplineId
    ensures e.discipline.Some? ==> e.discipline.value in data.disciplines && e.discipline.value.id == a.disciplineId
    ensures e.professors.Some?
    ensures forall p :: p in e.professors.value <==> p in data.professors && p.id in a.professorIds
  {
    a.(discipline := Find(data.disciplines, DisciplineHasId(a.disciplineId)),
       professors := Some(Filter(data.professors, ProfessorListed(a.professorIds))))
  }

  /** `getAllocation`: nothing before the first load or when no record is at
      the cell; otherwise the first record at the cell, enriched. */
  function LookupAllocation(data: Option<ScheduleGridData>, weekdayId: string, timeSlotId: string): (r: Option<Allocation>)
    ensures r.None? <==>
      data.None? || forall k :: 0 <= k < |data.value.allocations| ==> !AtCell(weekdayId, timeSlotId)(data.value.allocations[k])
    ensures r.Some? ==>
      var found := FindBySlot(data.value.allocations, weekdayId, timeSlotId);
      found.Some? && r.value == Enriched(found.value, data.value)
  {
    if data.None? then None
    else
      match FindBySlot(data.value.allocations, weekdayId, timeSlotId)
      case None => None
      case Some(a) => Some(Enriched(a, data.value))
  }

  /** Enrichment does not change a cell's state: the cell shows the state of
      the stored record. */
  lemma LookupShowsStoredState(data: ScheduleGridData, weekdayId: string, timeSlotId: string)
    ensures Classify(LookupAllocation(Some(data), weekdayId, timeSlotId))
         == Classify(FindBySlot(data.allocations, weekdayId, timeSlotId))
  {
  }

  // ---------------------------------------------------------------------
  // The drop reconciler, one function per handler
  // ---------------------------------------------------------------------

  /** The record the grid sees at a cell: nothing before the first load. */
  function Existing(allocations: seq<Allocation>, loaded: bool, weekdayId: string, timeSlotId: string): Option<Allocation>
  {
    if loaded then FindBySlot(allocations, weekdayId, timeSlotId) else None
  }

  /** A discipline drop: replaces the discipline of the record at the cell,
      keeping its professors, or creates a record with no professors. */
  function DisciplineDropped(allocations: seq<Allocation>, loaded: bool, disciplineId: string,
                             weekdayId: string, timeSlotId: string, freshId: string): (r: seq<Allocation>)
    ensures Existing(allocations, loaded, weekdayId, timeSlotId).Some? ==> |r| == |allocations| && Ids(r) == Ids(allocations)
    ensures Existing(allocations, loaded, weekdayId, timeSlotId).None? ==>
      |r| == |allocations| + 1 && Ids(r) == Ids(allocations) + [freshId] && r[..|allocations|] == allocations
  {
    match Existing(allocations, loaded, weekdayId, timeSlotId)
    case Some(existing) =>
      Updated(allocations, existing.id,
              AllocationRequest(Some(disciplineId), Some(existing.professorIds), weekdayId, timeSlotId))
    case None =>
      Created(allocations, freshId, AllocationRequest(Some(disciplineId), Some([]), weekdayId, timeSlotId))
  }

  /** `professorIds` with `professorId` pushed unless it is already there. */
  function WithProfessor(professorIds: seq<string>, professorId: string): (r: seq<string>)
    ensures professorId in r
    ensures forall x :: x in r <==> x in professorIds || x == professorId
    ensures NoDuplicates(professorIds) ==> NoDuplicates(r)
    ensures professorId in professorIds ==> r == professorIds
  {
    if professorId in professorIds then professorIds else professorIds + [professorId]
  }

  predicate NoDuplicates(ids: seq<string>)
  {
    forall i, j :: 0 <= i < j < |ids| ==> ids[i] != ids[j]
  }

  /** A professor drop: adds the professor to the record at the cell; no-op
      when the cell has no record or the record has no discipline. */
  function ProfessorDropped(allocations: seq<Allocation>, loaded: bool, professorId: string,
                            weekdayId: string, timeSlotId: string): (r: seq<Allocation>)
    ensures |r| == |allocations| && Ids(r) == Ids(allocations)
    ensures forall k :: 0 <= k < |r| && r[k] != allocations[k] ==> professorId in r[k].professorIds
  {
    match Existing(allocations, loaded, weekdayId, timeSlotId)
    case None => allocations
    case Some(existing) =>
      if existing.disciplineId == "" then allocations
      else Updated(allocations, existing.id,
                   AllocationRequest(Some(existing.disciplineId), Some(WithProfessor(existing.professorIds, professorId)),
                                     weekdayId, timeSlotId))
  }

  /** The request `moveAllocation` sends: the moved record's discipline and
      professors, keyed at the target cell. */
  function MoveRequest(moved: Allocation, targetWeekdayId: string, targetTimeSlotId: string): AllocationRequest
  {
    AllocationRequest(Some(moved.disciplineId), Some(moved.professorIds), targetWeekdayId, targetTimeSlotId)
  }

  /** The first step of a move onto another cell: whatever is at the target is deleted. */
  function Evicted(allocations: seq<Allocation>, loaded: bool, targetWeekdayId: string, targetTimeSlotId: string): (r: seq<Allocation>)
    ensures |r| == |allocations| - (if Existing(allocations, loaded, targetWeekdayId, targetTimeSlotId).Some? then 1 else 0)
    ensures forall a :: a in r ==> a in allocations
  {
    match Existing(allocations, loaded, targetWeekdayId, targetTimeSlotId)
    case Some(target) =>
      assert HasId(target.id)(allocations[FindIndex(allocations, AtCell(targetWeekdayId, targetTimeSlotId))]);
      Deleted(allocations, target.id)
    case None => allocations
  }

  /** An allocation move: no-op onto its own cell; otherwise evict the
      target, then re-key the moved record to the target. */
  function AllocationMoved(allocations: seq<Allocation>, loaded: bool, moved: Allocation,
                           targetWeekdayId: string, targetTimeSlotId: string): (r: seq<Allocation>)
    ensures |r| <= |allocations|
    ensures forall k :: 0 <= k < |r| ==>
      r[k] in allocations || (r[k].id == moved.id && AtCell(targetWeekdayId, targetTimeSlotId)(r[k]))
  {
    if moved.weekdayId == targetWeekdayId && moved.timeSlotId == targetTimeSlotId then allocations
    else Updated(Evicted(allocations, loaded, targetWeekdayId, targetTimeSlotId), moved.id,
                 MoveRequest(moved, targetWeekdayId, targetTimeSlotId))
  }

  /** `handleDropRequest`: each tag goes to exactly one handler; a foreign tag to none. */
  function Reconciled(allocations: seq<Allocation>, loaded: bool, request: DropRequest, freshId: string): (r: seq<Allocation>)
    ensures request.dragData.OtherDrag? ==> r == allocations
    ensures |r| <= |allocations| + 1
    ensures !request.dragData.DisciplineDrag? ==> |r| <= |allocations|
  {
    var w, t := request.targetWeekdayId, request.targetTimeSlotId;
    match request.dragData
    case DisciplineDrag(discipline, _) => DisciplineDropped(allocations, loaded, discipline.id, w, t, freshId)
    case ProfessorDrag(professor, _) => ProfessorDropped(allocations, loaded, professor.id, w, t)
    case AllocationDrag(moved, _) => AllocationMoved(allocations, loaded, moved, w, t)
    case OtherDrag(_, _) => allocations
  }

  // ---------------------------------------------------------------------
  // The grid's invariant and what each handler does to it
  // ---------------------------------------------------------------------

  /** At most one record per cell, ids unique, no professor listed twice,
      and no record without a discipline. */
  ghost predicate WellFormed(allocations: seq<Allocation>)
  {
    && UniqueCells(allocations)
    && UniqueIds(allocations)
    && (forall k :: 0 <= k < |allocations| ==> NoDuplicates(allocations[k].professorIds))
    && (forall k :: 0 <= k < |allocations| ==> allocations[k].disciplineId != "")
  }

  /** A payload depicts a stored record when it carries the same fields,
      whatever its enrichment. */
  predicate Depicts(payload: Allocation, record: Allocation)
  {
    payload.(discipline := record.discipline, professors := record.professors) == record
  }

  /** No record satisfying the cell predicate: none at the cell. */
  lemma {:induction false} NoneAt(s: seq<Allocation>, weekdayId: string, timeSlotId: string)
    requires forall k :: 0 <= k < |s| ==> !AtCell(weekdayId, timeSlotId)(s[k])
    ensures RecordsAt(s, weekdayId, timeSlotId) == []
  {
    if |s| > 0 {
      assert forall k :: 0 <= k < |s[1..]| ==> s[1..][k] == s[k + 1];
      NoneAt(s[1..], weekdayId, timeSlotId);
    }
  }

  /** In a list with unique cells, a record at a cell is the only one there. */
  lemma SoleRecordAt(s: seq<Allocation>, k: nat, weekdayId: string, timeSlotId: string)
    requires UniqueCells(s)
    requires k < |s| && AtCell(weekdayId, timeSlotId)(s[k])
    ensures RecordsAt(s, weekdayId, timeSlotId) == [s[k]]
  {
    var p := AtCell(weekdayId, timeSlotId);
    assert s == s[..k] + [s[k]] + s[k + 1..];
    FilterAppend(s[..k] + [s[k]], s[k + 1..], p);
    FilterAppend(s[..k], [s[k]], p);
    NoneAt(s[..k], weekdayId, timeSlotId);
    NoneAt(s[k + 1..], weekdayId, timeSlotId);
    assert [s[k]][1..] == [];
  }

  /** Removing the first record with an id keeps the list well formed. */
  lemma DeletedKeepsWellFormed(allocations: seq<Allocation>, id: string)
    requires WellFormed(allocations)
    ensures WellFormed(Deleted(allocations, id))
  {
  }

  /** The first step of a move leaves the list well formed with nothing at
      the target cell, and removes nothing but the target's record. */
  lemma EvictedFreesTarget(allocations: seq<Allocation>, targetWeekdayId: string, targetTimeSlotId: string)
    requires WellFormed(allocations)
    ensures var e := Evicted(allocations, true, targetWeekdayId, targetTimeSlotId);
      && WellFormed(e)
      && (forall k :: 0 <= k < |e| ==> !AtCell(targetWeekdayId, targetTimeSlotId)(e[k]))
      && (forall a :: a in e ==> a in allocations)
      && (forall a :: a in allocations && !AtCell(targetWeekdayId, targetTimeSlotId)(a) ==> a in e)
      && |e| == |allocations| - (if FindBySlot(allocations, targetWeekdayId, targetTimeSlotId).Some? then 1 else 0)
  {
  }

  /** Re-keying a record to a cell nothing occupies keeps the list well formed. */
  lemma RekeyedKeepsWellFormed(s: seq<Allocation>, moved: Allocation, targetWeekdayId: string, targetTimeSlotId: string)
    requires WellFormed(s)
    requires forall k :: 0 <= k < |s| ==> !AtCell(targetWeekdayId, targetTimeSlotId)(s[k])
    requires NoDuplicates(moved.professorIds)
    ensures WellFormed(Updated(s, moved.id, MoveRequest(moved, targetWeekdayId, targetTimeSlotId)))
  {
  }

  /** A move keeps the list well formed, whatever the payload, provided its
      professor ids have no duplicates. */
  lemma MoveKeepsWellFormed(allocations: seq<Allocation>, moved: Allocation, targetWeekdayId: string, targetTimeSlotId: string)
    requires WellFormed(allocations)
    requires NoDuplicates(moved.professorIds)
    ensures WellFormed(AllocationMoved(allocations, true, moved, targetWeekdayId, targetTimeSlotId))
  {
    if !(moved.weekdayId == targetWeekdayId && moved.timeSlotId == targetTimeSlotId) {
      EvictedFreesTarget(allocations, targetWeekdayId, targetTimeSlotId);
      RekeyedKeepsWellFormed(Evicted(allocations, true, targetWeekdayId, targetTimeSlotId), moved, targetWeekdayId, targetTimeSlotId);
    }
  }

  /** The moved record survives the eviction, at the index its id is found at. */
  lemma MovedRecordSurvivesEviction(allocations: seq<Allocation>, m: nat, moved: Allocation,
                                    targetWeekdayId: string, targetTimeSlotId: string)
    requires WellFormed(allocations)
    requires m < |allocations| && Depicts(moved, allocations[m])
    requires moved.weekdayId != targetWeekdayId || moved.timeSlotId != targetTimeSlotId
    ensures var e := Evicted(allocations, true, targetWeekdayId, targetTimeSlotId);
      var j := IndexOfId(e, moved.id);
      0 <= j < |e| && e[j] == allocations[m]
  {
    EvictedFreesTarget(allocations, targetWeekdayId, targetTimeSlotId);
    var e := Evicted(allocations, true, targetWeekdayId, targetTimeSlotId);
    assert !AtCell(targetWeekdayId, targetTimeSlotId)(allocations[m]);
    assert allocations[m] in e;
    assert HasId(moved.id)(allocations[m]);
    var j := IndexOfId(e, moved.id);
    var q :| 0 <= q < |allocations| && allocations[q] == e[j];
    assert allocations[q].id == allocations[m].id;
  }

  /** After a move of a live record, nothing is left at its source cell. */
  lemma MoveEmptiesSource(allocations: seq<Allocation>, m: nat, moved: Allocation,
                          targetWeekdayId: string, targetTimeSlotId: string)
    requires WellFormed(allocations)
    requires m < |allocations| && Depicts(moved, allocations[m])
    requires moved.weekdayId != targetWeekdayId || moved.timeSlotId != targetTimeSlotId
    ensures RecordsAt(AllocationMoved(allocations, true, moved, targetWeekdayId, targetTimeSlotId),
                      moved.weekdayId, moved.timeSlotId) == []
  {
    var source := AtCell(moved.weekdayId, moved.timeSlotId);
    var e := Evicted(allocations, true, targetWeekdayId, targetTimeSlotId);
    var r := AllocationMoved(allocations, true, moved, targetWeekdayId, targetTimeSlotId);
    EvictedFreesTarget(allocations, targetWeekdayId, targetTimeSlotId);
    MovedRecordSurvivesEviction(allocations, m, moved, targetWeekdayId, targetTimeSlotId);
    var j := IndexOfId(e, moved.id);
    forall k | 0 <= k < |r| ensures !source(r[k]) {
      if k != j {
        assert r[k] == e[k] && e[k] in allocations;
        assert e[k].id != e[j].id;
        var q :| 0 <= q < |allocations| && allocations[q] == r[k];
        assert q != m;
      }
    }
    NoneAt(r, moved.weekdayId, moved.timeSlotId);
  }

  /** After a move, the record that occupied the target is gone for good. */
  lemma MoveDropsTarget(allocations: seq<Allocation>, moved: Allocation, target: Allocation,
                        targetWeekdayId: string, targetTimeSlotId: string)
    requires WellFormed(allocations)
    requires moved.weekdayId != targetWeekdayId || moved.timeSlotId != targetTimeSlotId
    requires FindBySlot(allocations, targetWeekdayId, targetTimeSlotId) == Some(target)
    ensures target.id !in Ids(AllocationMoved(allocations, true, moved, targetWeekdayId, targetTimeSlotId))
  {
  }

  /** A move keeps every record other than the moved one and the target's. */
  lemma MoveKeepsOthers(allocations: seq<Allocation>, m: nat, moved: Allocation,
                        targetWeekdayId: string, targetTimeSlotId: string)
    requires WellFormed(allocations)
    requires m < |allocations| && Depicts(moved, allocations[m])
    requires moved.weekdayId != targetWeekdayId || moved.timeSlotId != targetTimeSlotId
    ensures var r := AllocationMoved(allocations, true, moved, targetWeekdayId, targetTimeSlotId);
      forall a :: a in allocations && a != allocations[m] && !AtCell(targetWeekdayId, targetTimeSlotId)(a) ==> a in r
  {
    var e := Evicted(allocations, true, targetWeekdayId, targetTimeSlotId);
    var r := AllocationMoved(allocations, true, moved, targetWeekdayId, targetTimeSlotId);
    EvictedFreesTarget(allocations, targetWeekdayId, targetTimeSlotId);
    MovedRecordSurvivesEviction(allocations, m, moved, targetWeekdayId, targetTimeSlotId);
    var j := IndexOfId(e, moved.id);
    forall a | a in allocations && a != allocations[m] && !AtCell(targetWeekdayId, targetTimeSlotId)(a) ensures a in r {
      var k :| 0 <= k < |e| && e[k] == a;
      assert k != j;
      assert r[k] == a;
    }
  }

  /** Moving a live record onto another cell: the target's former record is
      gone, exactly one record is at the target (the moved one, with the same
      id, discipline and professors), the source cell is empty, and nothing
      else is lost. */
  lemma MoveRelocates(allocations: seq<Allocation>, m: nat, moved: Allocation,
                                         targetWeekdayId: string, targetTimeSlotId: string)
    requires WellFormed(allocations)
    requires m < |allocations| && Depicts(moved, allocations[m])
    requires moved.weekdayId != targetWeekdayId || moved.timeSlotId != targetTimeSlotId
    ensures var r := AllocationMoved(allocations, true, moved, targetWeekdayId, targetTimeSlotId);
      && WellFormed(r)
      && RecordsAt(r, targetWeekdayId, targetTimeSlotId)
         == [allocations[m].(weekdayId := targetWeekdayId, timeSlotId := targetTimeSlotId)]
      && RecordsAt(r, moved.weekdayId, moved.timeSlotId) == []
      && (forall target :: FindBySlot(allocations, targetWeekdayId, targetTimeSlotId) == Some(target) ==> target.id !in Ids(r))
      && (forall a :: a in allocations && a != allocations[m] && !AtCell(targetWeekdayId, targetTimeSlotId)(a) ==> a in r)
      && |r| == |allocations| - (if FindBySlot(allocations, targetWeekdayId, targetTimeSlotId).Some? then 1 else 0)
  {
    var e := Evicted(allocations, true, targetWeekdayId, targetTimeSlotId);
    var r := AllocationMoved(allocations, true, moved, targetWeekdayId, targetTimeSlotId);
    EvictedFreesTarget(allocations, targetWeekdayId, targetTimeSlotId);
    MoveKeepsWellFormed(allocations, moved, targetWeekdayId, targetTimeSlotId);
    MovedRecordSurvivesEviction(allocations, m, moved, targetWeekdayId, targetTimeSlotId);
    var j := IndexOfId(e, moved.id);
    assert r[j] == allocations[m].(weekdayId := targetWeekdayId, timeSlotId := targetTimeSlotId);
    SoleRecordAt(r, j, targetWeekdayId, targetTimeSlotId);
    MoveEmptiesSource(allocations, m, moved, targetWeekdayId, targetTimeSlotId);
    forall target | FindBySlot(allocations, targetWeekdayId, targetTimeSlotId) == Some(target) ensures target.id !in Ids(r) {
      MoveDropsTarget(allocations, moved, target, targetWeekdayId, targetTimeSlotId);
    }
    MoveKeepsOthers(allocations, m, moved, targetWeekdayId, targetTimeSlotId);
  }

  /** A discipline dropped on an occupied cell changes that record only: the
      new discipline replaces the old one (an empty id keeps the old one),
      and the id, the cell and the professors stay. */
  lemma DisciplineDropOnOccupiedCell(allocations: seq<Allocation>, disciplineId: string,
                                                        weekdayId: string, timeSlotId: string, freshId: string)
    requires UniqueIds(allocations)
    requires FindBySlot(allocations, weekdayId, timeSlotId).Some?
    ensures var i := FindIndex(allocations, AtCell(weekdayId, timeSlotId));
      var r := DisciplineDropped(allocations, true, disciplineId, weekdayId, timeSlotId, freshId);
      && |r| == |allocations|
      && r[i] == allocations[i].(disciplineId := if disciplineId != "" then disciplineId else allocations[i].disciplineId)
      && forall k :: 0 <= k < |r| && k != i ==> r[k] == allocations[k]
  {
  }

  /** A discipline dropped on a cell the grid sees as empty appends one record
      at the cell with no professors; once loaded it is then the cell's only
      record, so a discipline drop never puts a second record in a cell. */
  lemma DisciplineDropOnEmptyCell(allocations: seq<Allocation>, loaded: bool, disciplineId: string,
                                  weekdayId: string, timeSlotId: string, freshId: string)
    requires Existing(allocations, loaded, weekdayId, timeSlotId).None?
    ensures var r := DisciplineDropped(allocations, loaded, disciplineId, weekdayId, timeSlotId, freshId);
      var created := Allocation(freshId, disciplineId, [], weekdayId, timeSlotId, None, None);
      && r == allocations + [created]
      && (loaded ==> RecordsAt(r, weekdayId, timeSlotId) == [created])
      && (loaded ==> Classify(FindBySlot(r, weekdayId, timeSlotId)) == DisciplineOnly)
  {
    var r := DisciplineDropped(allocations, loaded, disciplineId, weekdayId, timeSlotId, freshId);
    var created := Allocation(freshId, disciplineId, [], weekdayId, timeSlotId, None, None);
    if loaded {
      NoneAt(allocations, weekdayId, timeSlotId);
      FilterAppend(allocations, [created], AtCell(weekdayId, timeSlotId));
      assert [created][1..] == [];
      assert FindIndex(r, AtCell(weekdayId, timeSlotId)) == |allocations|;
    }
  }

  /** A discipline drop keeps the grid well formed, given a fresh id and a
      discipline that has an id. */
  lemma DisciplineDropKeepsWellFormed(allocations: seq<Allocation>, disciplineId: string,
                                      weekdayId: string, timeSlotId: string, freshId: string)
    requires WellFormed(allocations)
    requires disciplineId != "" && freshId !in Ids(allocations)
    ensures WellFormed(DisciplineDropped(allocations, true, disciplineId, weekdayId, timeSlotId, freshId))
  {
    if FindBySlot(allocations, weekdayId, timeSlotId).Some? {
      DisciplineDropOnOccupiedCell(allocations, disciplineId, weekdayId, timeSlotId, freshId);
    } else {
      var r := DisciplineDropped(allocations, true, disciplineId, weekdayId, timeSlotId, freshId);
      forall k | 0 <= k < |allocations| ensures allocations[k].id != freshId {
        assert Ids(allocations)[k] == allocations[k].id;
      }
      assert r[|allocations|].professorIds == [];
    }
  }

  /** A professor dropped on a cell with no record, or whose record has no
      discipline, changes nothing. */
  lemma ProfessorDropWithoutDisciplineIsNoOp(allocations: seq<Allocation>, loaded: bool, professorId: string,
                                             weekdayId: string, timeSlotId: string)
    requires var existing := Existing(allocations, loaded, weekdayId, timeSlotId);
      existing.None? || existing.value.disciplineId == ""
    ensures ProfessorDropped(allocations, loaded, professorId, weekdayId, timeSlotId) == allocations
  {
  }

  /** Moving an allocation onto its own cell changes nothing. */
  lemma MoveOntoOwnCellIsNoOp(allocations: seq<Allocation>, loaded: bool, moved: Allocation)
    ensures AllocationMoved(allocations, loaded, moved, moved.weekdayId, moved.timeSlotId) == allocations
  {
  }

  /** A professor dropped on a record with a discipline is added to that
      record's professors unless already there; nothing else changes. */
  lemma ProfessorDropAdds(allocations: seq<Allocation>, professorId: string,
                                             weekdayId: string, timeSlotId: string)
    requires UniqueIds(allocations)
    requires FindBySlot(allocations, weekdayId, timeSlotId).Some?
    requires FindBySlot(allocations, weekdayId, timeSlotId).value.disciplineId != ""
    ensures var i := FindIndex(allocations, AtCell(weekdayId, timeSlotId));
      var r := ProfessorDropped(allocations, true, professorId, weekdayId, timeSlotId);
      && |r| == |allocations|
      && r[i] == allocations[i].(professorIds := WithProfessor(allocations[i].professorIds, professorId))
      && forall k :: 0 <= k < |r| && k != i ==> r[k] == allocations[k]
  {
  }

  /** Dropping the same professor twice is the same as dropping it once. */
  lemma ProfessorDropIdempotent(allocations: seq<Allocation>, loaded: bool, professorId: string,
                                                   weekdayId: string, timeSlotId: string)
    requires UniqueIds(allocations)
    ensures var once := ProfessorDropped(allocations, loaded, professorId, weekdayId, timeSlotId);
      ProfessorDropped(once, loaded, professorId, weekdayId, timeSlotId) == once
  {
  }

  /** A professor drop keeps the grid well formed. */
  lemma ProfessorDropKeepsWellFormed(allocations: seq<Allocation>, professorId: string,
                                     weekdayId: string, timeSlotId: string)
    requires WellFormed(allocations)
    ensures WellFormed(ProfessorDropped(allocations, true, professorId, weekdayId, timeSlotId))
  {
  }

  /** Every drop the grid reconciles keeps the grid well formed, given a
      fresh id, a discipline that has an id, and a moved payload without
      duplicate professors. */
  lemma ReconciledKeepsWellFormed(allocations: seq<Allocation>, request: DropRequest, freshId: string)
    requires WellFormed(allocations)
    requires freshId !in Ids(allocations)
    requires request.dragData.DisciplineDrag? ==> request.dragData.discipline.id != ""
    requires request.dragData.AllocationDrag? ==> NoDuplicates(request.dragData.allocation.professorIds)
    ensures WellFormed(Reconciled(allocations, true, request, freshId))
  {
    var w, t := request.targetWeekdayId, request.targetTimeSlotId;
    match request.dragData
    case DisciplineDrag(discipline, _) => DisciplineDropKeepsWellFormed(allocations, discipline.id, w, t, freshId);
    case ProfessorDrag(professor, _) => ProfessorDropKeepsWellFormed(allocations, professor.id, w, t);
    case AllocationDrag(moved, _) => MoveKeepsWellFormed(allocations, moved, w, t);
    case OtherDrag(_, _) =>
  }

  /** Before the first load the grid sees every cell as empty, so a
      discipline drop creates a record even where the store already holds
      one: the preservation lemmas above are about the loaded grid only. */
  lemma DropBeforeLoadIgnoresOccupant()
    ensures var occupant := Allocation("a", "1", [], "1", "1", None, None);
      && WellFormed([occupant])
      && !UniqueCells(DisciplineDropped([occupant], false, "2", "1", "1", "b"))
  {
    var occupant := Allocation("a", "1", [], "1", "1", None, None);
    var r := DisciplineDropped([occupant], false, "2", "1", "1", "b");
    assert r[0] == occupant && AtCell("1", "1")(r[1]);
  }

  /** A professor dragged over a cell the grid shows as empty is never
      forwarded by the cell, and the reconciler would ignore it anyway. */
  lemma ProfessorNeverLandsOnEmptyCell(data: ScheduleGridData, sameContainer: bool, professor: Professor,
                                                          source: Option<string>, weekdayId: string, timeSlotId: string)
    requires FindBySlot(data.allocations, weekdayId, timeSlotId).None?
    ensures var state := Classify(LookupAllocation(Some(data), weekdayId, timeSlotId));
      && state == Empty
      && DropOutcome(sameContainer, state, ProfessorDrag(professor, source), weekdayId, timeSlotId).None?
      && ProfessorDropped(data.allocations, true, professor.id, weekdayId, timeSlotId) == data.allocations
  {
  }

  // ---------------------------------------------------------------------
  // Drop-list ids
  // ---------------------------------------------------------------------

  /** `timeSlot_<id>_<weekdayId>`; a slot without a weekday prints "undefined". */
  function DropListId(slot: TimeSlot): (id: string)
    ensures |id| == 10 + |slot.id| + |WeekdayText(slot)|
  {
    "timeSlot_" + slot.id + "_" + WeekdayText(slot)
  }

  /** A slot's weekday as a template literal prints it: "undefined" when absent. */
  function WeekdayText(slot: TimeSlot): string
  {
    if slot.weekdayId.Some? then slot.weekdayId.value else "undefined"
  }

  /** A drop-list id reads `timeSlot_`, the slot id, `_`, and the weekday text. */
  lemma DropListIdFormat(slot: TimeSlot)
    ensures var id := DropListId(slot);
      && id[..9] == "timeSlot_" && id[9..9 + |slot.id|] == slot.id && id[9 + |slot.id|] == '_'
      && id[10 + |slot.id|..] == WeekdayText(slot)
  {
  }

  /** Of two underscore-free slot ids, the shorter one's drop-list id has an
      underscore where the longer one's has a character of its id. */
  lemma ShorterIdDiffers(a: TimeSlot, b: TimeSlot)
    requires '_' !in b.id && |a.id| < |b.id|
    ensures DropListId(a) != DropListId(b)
  {
    DropListIdFormat(a);
    DropListIdFormat(b);
    var n := |a.id|;
    assert DropListId(b)[9 + n] == DropListId(b)[9..9 + |b.id|][n] == b.id[n];
    assert b.id[n] in b.id;
  }

  /** For slot ids without an underscore, two drop-list ids are equal exactly
      when they name the same slot id and the same weekday text. */
  lemma DropListIdNamesTheCell(a: TimeSlot, b: TimeSlot)
    requires '_' !in a.id && '_' !in b.id
    ensures DropListId(a) == DropListId(b) <==> a.id == b.id && WeekdayText(a) == WeekdayText(b)
  {
    DropListIdFormat(a);
    DropListIdFormat(b);
    if |a.id| < |b.id| {
      ShorterIdDiffers(a, b);
    } else if |b.id| < |a.id| {
      ShorterIdDiffers(b, a);
    }
  }

  /** Whether a slot's cached state is EMPTY; a slot with no cached state is not. */
  predicate CachedEmpty(slot: TimeSlot)
  {
    slot.slotState == Some(Empty)
  }

  /** The drop-list ids of the slots whose cached emptiness is `empty`, in slot order. */
  function DropListIds(slots: seq<TimeSlot>, empty: bool): (ids: seq<string>)
    ensures forall k :: 0 <= k < |slots| && CachedEmpty(slots[k]) == empty ==> DropListId(slots[k]) in ids
    ensures forall x :: x in ids ==> exists k :: 0 <= k < |slots| && CachedEmpty(slots[k]) == empty && DropListId(slots[k]) == x
  {
    if |slots| == 0 then []
    else
      var init := slots[..|slots| - 1];
      var last := slots[|slots| - 1];
      assert forall k :: 0 <= k < |init| ==> init[k] == slots[k];
      DropListIds(init, empty) + (if CachedEmpty(last) == empty then [DropListId(last)] else [])
  }

  /** The drop-list ids of all slots, in slot order. */
  function AllDropListIds(slots: seq<TimeSlot>): seq<string>
  {
    if |slots| == 0 then [] else AllDropListIds(slots[..|slots| - 1]) + [DropListId(slots[|slots| - 1])]
  }

  /** The discipline list (EMPTY slots) and the professor list (the others,
      including slots with no cached state) partition the slots. */
  lemma {:induction false} DropListsPartitionSlots(slots: seq<TimeSlot>)
    ensures |DropListIds(slots, true)| + |DropListIds(slots, false)| == |slots|
    ensures multiset(DropListIds(slots, true)) + multiset(DropListIds(slots, false)) == multiset(AllDropListIds(slots))
  {
    if |slots| > 0 {
      DropListsPartitionSlots(slots[..|slots| - 1]);
    }
  }

  // ---------------------------------------------------------------------
  // The grid component
  // ---------------------------------------------------------------------

  /** The grid. It reads the store's published data (which shares the
      store's list) and sends its writes to the store. */
  class ScheduleGridComponent {
    const scheduleService: ScheduleService

    constructor (service: ScheduleService)
      ensures scheduleService == service
    {
      scheduleService := service;
    }

    function GetAllocation(weekdayId: string, timeSlotId: string): (r: Option<Allocation>)
      reads scheduleService
      ensures scheduleService.scheduleData.None? ==> r.None?
      ensures r.Some? ==>
        && AtCell(weekdayId, timeSlotId)(r.value)
        && r.value.professors.Some?
        && exists k :: 0 <= k < |scheduleService.scheduleData.value.allocations|
             && r.value.id == scheduleService.scheduleData.value.allocations[k].id
    {
      LookupAllocation(scheduleService.scheduleData, weekdayId, timeSlotId)
    }

    /** Dispatches a forwarded drop; `freshId` is the id a new record gets. */
    method HandleDropRequest(request: DropRequest, freshId: string)
      requires scheduleService.Valid()
      modifies scheduleService
      ensures scheduleService.Valid()
      ensures scheduleService.mockAllocations
           == Reconciled(old(scheduleService.mockAllocations), old(scheduleService.scheduleData).Some?, request, freshId)
      ensures scheduleService.scheduleData == Republished(old(scheduleService.scheduleData), scheduleService.mockAllocations)
    {
      var w, t := request.targetWeekdayId, request.targetTimeSlotId;
      match request.dragData
      case DisciplineDrag(discipline, _) => HandleDisciplineDrop(discipline, w, t, freshId);
      case ProfessorDrag(professor, _) => HandleProfessorDrop(professor, w, t);
      case AllocationDrag(moved, sourceSlotId) => HandleAllocationMove(moved, w, t, sourceSlotId);
      case OtherDrag(_, _) =>
    }

    method HandleDisciplineDrop(discipline: Discipline, weekdayId: string, timeSlotId: string, freshId: string)
      requires scheduleService.Valid()
      modifies scheduleService
      ensures scheduleService.Valid()
      ensures scheduleService.mockAllocations
           == DisciplineDropped(old(scheduleService.mockAllocations), old(scheduleService.scheduleData).Some?,
                                discipline.id, weekdayId, timeSlotId, freshId)
      ensures scheduleService.scheduleData == Republished(old(scheduleService.scheduleData), scheduleService.mockAllocations)
    {
      var existingAllocation := GetAllocation(weekdayId, timeSlotId);
      if existingAllocation.Some? {
        var request := AllocationRequest(Some(discipline.id), Some(existingAllocation.value.professorIds), weekdayId, timeSlotId);
        var _ := scheduleService.UpdateAllocation(existingAllocation.value.id, request);
      } else {
        var request := AllocationRequest(Some(discipline.id), Some([]), weekdayId, timeSlotId);
        var _ := scheduleService.CreateAllocation(freshId, request);
      }
    }

    method HandleProfessorDrop(professor: Professor, weekdayId: string, timeSlotId: string)
      requires scheduleService.Valid()
      modifies scheduleService
      ensures scheduleService.Valid()
      ensures scheduleService.mockAllocations
           == ProfessorDropped(old(scheduleService.mockAllocations), old(scheduleService.scheduleData).Some?,
                               professor.id, weekdayId, timeSlotId)
      ensures scheduleService.scheduleData == Republished(old(scheduleService.scheduleData), scheduleService.mockAllocations)
    {
      var existingAllocation := GetAllocation(weekdayId, timeSlotId);
      if existingAllocation.None? || existingAllocation.value.disciplineId == "" {
        return;
      }
      var updatedProfessorIds := existingAllocation.value.professorIds;
      if professor.id !in updatedProfessorIds {
        updatedProfessorIds := updatedProfessorIds + [professor.id];
      }
      var request := AllocationRequest(Some(existingAllocation.value.disciplineId), Some(updatedProfessorIds), weekdayId, timeSlotId);
      var _ := scheduleService.UpdateAllocation(existingAllocation.value.id, request);
    }

    /** A move; the payload's `sourceSlotId` is passed along but not used. */
    method HandleAllocationMove(allocation: Allocation, targetWeekdayId: string, targetTimeSlotId: string,
                                sourceSlotId: Option<string>)
      requires scheduleService.Valid()
      modifies scheduleService
      ensures scheduleService.Valid()
      ensures scheduleService.mockAllocations
           == AllocationMoved(old(scheduleService.mockAllocations), old(scheduleService.scheduleData).Some?,
                              allocation, targetWeekdayId, targetTimeSlotId)
      ensures scheduleService.scheduleData == Republished(old(scheduleService.scheduleData), scheduleService.mockAllocations)
    {
      if allocation.weekdayId == targetWeekdayId && allocation.timeSlotId == targetTimeSlotId {
        return;
      }
      var targetAllocation := GetAllocation(targetWeekdayId, targetTimeSlotId);
      if targetAllocation.Some? {
        var _ := scheduleService.DeleteAllocation(targetAllocation.value.id);
        MoveAllocation(allocation, targetWeekdayId, targetTimeSlotId);
      } else {
        MoveAllocation(allocation, targetWeekdayId, targetTimeSlotId);
      }
    }

    /** Re-keys the record with the payload's id to the target cell. */
    method MoveAllocation(allocation: Allocation, targetWeekdayId: string, targetTimeSlotId: string)
      requires scheduleService.Valid()
      modifies scheduleService
      ensures scheduleService.Valid()
      ensures scheduleService.mockAllocations
           == Updated(old(scheduleService.mockAllocations), allocation.id, MoveRequest(allocation, targetWeekdayId, targetTimeSlotId))
      ensures scheduleService.scheduleData == Republished(old(scheduleService.scheduleData), scheduleService.mockAllocations)
    {
      var request := AllocationRequest(Some(allocation.disciplineId), Some(allocation.professorIds), targetWeekdayId, targetTimeSlotId);
      var _ := scheduleService.UpdateAllocation(allocation.id, request);
    }

    /** The drop lists a discipline drag may enter: the slots cached as EMPTY. */
    method GetDisciplinesDropListIds() returns (possibleDropIds: seq<string>)
      ensures scheduleService.scheduleData.None? ==> possibleDropIds == []
      ensures scheduleService.scheduleData.Some? ==>
        possibleDropIds == DropListIds(scheduleService.scheduleData.value.timeSlots, true)
    {
      possibleDropIds := CollectDropListIds(true);
    }

    /** The drop lists a professor drag may enter: every slot not cached as EMPTY. */
    method GetProfessorsDropListIds() returns (possibleDropIds: seq<string>)
      ensures scheduleService.scheduleData.None? ==> possibleDropIds == []
      ensures scheduleService.scheduleData.Some? ==>
        possibleDropIds == DropListIds(scheduleService.scheduleData.value.timeSlots, false)
    {
      possibleDropIds := CollectDropListIds(false);
    }

    /** The loop both drop-list getters run over the slots. */
    method CollectDropListIds(empty: bool) returns (possibleDropIds: seq<string>)
      ensures scheduleService.scheduleData.None? ==> possibleDropIds == []
      ensures scheduleService.scheduleData.Some? ==>
        possibleDropIds == DropListIds(scheduleService.scheduleData.value.timeSlots, empty)
    {
      possibleDropIds := [];
      if scheduleService.scheduleData.None? {
        return;
      }
      var slots := scheduleService.scheduleData.value.timeSlots;
      var i := 0;
      while i < |slots|
        invariant 0 <= i <= |slots|
        invariant possibleDropIds == DropListIds(slots[..i], empty)
      {
        assert slots[..i + 1][..i] == slots[..i];
        if CachedEmpty(slots[i]) == empty {
          possibleDropIds := possibleDropIds + [DropListId(slots[i])];
        }
        i := i + 1;
      }
      assert slots[..i] == slots;
    }
  }
}
