/** The drop walkthrough of the timetable: a discipline onto an empty cell, a
    professor onto it, a professor onto an empty cell, and a move onto an
    empty cell, on the reconciler and on the grid component. */
module ScheduleScenarios {
  import opened ScheduleModels
  import opened ArrayOps
  import opened TimeSlotCell
  import opened ScheduleStore
  import opened DragDrop
  import opened ScheduleGrid

  /** The four drops, step by step, on the reconciler alone. */
  lemma DropWalkthrough(freshId: string)
    ensures var created := DisciplineDropped([], true, "1", "1", "1", freshId);
      && created == [Allocation(freshId, "1", [], "1", "1", None, None)]
      && Classify(FindBySlot(created, "1", "1")) == DisciplineOnly
    ensures var created := DisciplineDropped([], true, "1", "1", "1", freshId);
      var staffed := ProfessorDropped(created, true, "1", "1", "1");
      && staffed == [Allocation(freshId, "1", ["1"], "1", "1", None, None)]
      && Classify(FindBySlot(staffed, "1", "1")) == DisciplineWithProfessors
      && ProfessorDropped(staffed, true, "2", "1", "2") == staffed
      && Classify(FindBySlot(staffed, "1", "2")) == Empty
      && Classify(FindBySlot(staffed, "2", "1")) == Empty
    ensures var staffed := [Allocation(freshId, "1", ["1"], "1", "1", None, None)];
      var moved := AllocationMoved(staffed, true, staffed[0], "2", "1");
      && moved == [Allocation(freshId, "1", ["1"], "2", "1", None, None)]
      && Classify(FindBySlot(moved, "1", "1")) == Empty
      && Classify(FindBySlot(moved, "2", "1")) == DisciplineWithProfessors
  {
    var created := DisciplineDropped([], true, "1", "1", "1", freshId);
    DisciplineDropOnEmptyCell([], true, "1", "1", "1", freshId);
    assert AtCell("1", "1")(created[0]);
    assert FindIndex(created, AtCell("1", "1")) == 0;
    assert FindBySlot(created, "1", "1") == Some(created[0]);
    assert WithProfessor([], "1") == ["1"];
    var staffed := ProfessorDropped(created, true, "1", "1", "1");
    assert HasId(freshId)(created[0]);
    assert IndexOfId(created, freshId) == 0;
    assert staffed[0] == Merged(created[0], AllocationRequest(Some("1"), Some(["1"]), "1", "1"));
    assert staffed == [Allocation(freshId, "1", ["1"], "1", "1", None, None)];
    assert AtCell("1", "1")(staffed[0]) && !AtCell("1", "2")(staffed[0]);
    assert FindIndex(staffed, AtCell("1", "2")) == -1;
    assert !AtCell("2", "1")(staffed[0]);
    assert FindIndex(staffed, AtCell("2", "1")) == -1;
    assert HasId(freshId)(staffed[0]);
    assert IndexOfId(staffed, freshId) == 0;
    var moved := AllocationMoved(staffed, true, staffed[0], "2", "1");
    assert moved == [Allocation(freshId, "1", ["1"], "2", "1", None, None)];
    assert !AtCell("1", "1")(moved[0]) && AtCell("2", "1")(moved[0]);
    assert FindIndex(moved, AtCell("1", "1")) == -1;
    assert FindIndex(moved, AtCell("2", "1")) == 0;
  }

  /** A drop as the page wires it: the cell at (weekdayId, timeSlotId), showing
      what the grid looks up for it, gates the drop, and a forwarded drop is
      reconciled by the grid into the store. */
  method DropOnCell(grid: ScheduleGridComponent, session: DragDropService, weekdayId: string, timeSlotId: string,
                    dragData: DragDropData, freshId: string) returns (emitted: Option<DropRequest>)
    requires grid.scheduleService.Valid()
    modifies grid.scheduleService
    ensures grid.scheduleService.Valid()
    ensures emitted == DropOutcome(false, Classify(Existing(old(grid.scheduleService.mockAllocations),
                                                            old(grid.scheduleService.scheduleData).Some?, weekdayId, timeSlotId)),
                                   dragData, weekdayId, timeSlotId)
    ensures grid.scheduleService.mockAllocations
         == if emitted.Some?
            then Reconciled(old(grid.scheduleService.mockAllocations), old(grid.scheduleService.scheduleData).Some?,
                            emitted.value, freshId)
            else old(grid.scheduleService.mockAllocations)
    ensures grid.scheduleService.scheduleData
         == Republished(old(grid.scheduleService.scheduleData), grid.scheduleService.mockAllocations)
  {
    if grid.scheduleService.scheduleData.Some? {
      LookupShowsStoredState(grid.scheduleService.scheduleData.value, weekdayId, timeSlotId);
    }
    var cell := new TimeSlotComponent(session, weekdayId, timeSlotId, grid.GetAllocation(weekdayId, timeSlotId));
    emitted := cell.OnDrop(false, dragData);
    if emitted.Some? {
      grid.HandleDropRequest(emitted.value, freshId);
    }
  }

  /** The same walkthrough end to end, on a loaded store. Returns the store's
      list after each forwarded drop. */
  method GridWalkthrough(freshId: string) returns (afterCreate: seq<Allocation>, afterStaff: seq<Allocation>,
                                                   afterMove: seq<Allocation>)
    ensures afterCreate == [Allocation(freshId, "1", [], "1", "1", None, None)]
    ensures afterStaff == [Allocation(freshId, "1", ["1"], "1", "1", None, None)]
    ensures afterMove == [Allocation(freshId, "1", ["1"], "2", "1", None, None)]
  {
    var mathematics := Discipline("1", "Mathematics", "MATH101", Some("#3B82F6"), 60);
    var smith := Professor("1", "Dr. John Smith", "j.smith@university.edu", "Mathematics");
    var johnson := Professor("2", "Prof. Sarah Johnson", "s.johnson@university.edu", "Physics");
    var store := new ScheduleService([Weekday("1", "Monday", "Mon", 1), Weekday("2", "Tuesday", "Tue", 2)],
                                     [TimeSlot("1", "08:00", "09:00", 1, None, None),
                                      TimeSlot("2", "09:00", "10:00", 2, None, None)],
                                     [mathematics], [smith, johnson]);
    var session := new DragDropService();
    var grid := new ScheduleGridComponent(store);
    var _ := store.GetScheduleData();
    DropWalkthrough(freshId);
    var created := DisciplineDropped([], true, "1", "1", "1", freshId);
    var staffed := ProfessorDropped(created, true, "1", "1", "1");

    // A discipline onto the empty cell (1, 1).
    var emitted := DropOnCell(grid, session, "1", "1", DisciplineDrag(mathematics, None), freshId);
    afterCreate := store.mockAllocations;
    assert afterCreate == created && store.scheduleData.Some?;

    // A professor onto the now occupied cell (1, 1).
    emitted := DropOnCell(grid, session, "1", "1", ProfessorDrag(smith, None), freshId);
    afterStaff := store.mockAllocations;
    assert afterStaff == staffed && store.scheduleData.Some?;

    // A professor onto the empty cell (1, 2): the cell swallows it.
    emitted := DropOnCell(grid, session, "1", "2", ProfessorDrag(johnson, None), freshId);
    assert emitted.None? && store.mockAllocations == afterStaff;

    // The allocation of (1, 1), as its cell offers it, onto the empty cell (2, 1).
    var payload := AllocationDrag(grid.GetAllocation("1", "1").value, Some("1-1"));
    assert MoveRequest(payload.allocation, "2", "1") == MoveRequest(afterStaff[0], "2", "1");
    emitted := DropOnCell(grid, session, "2", "1", payload, freshId);
    afterMove := store.mockAllocations;
  }
}
