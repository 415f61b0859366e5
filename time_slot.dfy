/** One cell of the grid: its derived state, its CSS classes while a drag
    passes over it, the payload it offers when its allocation is dragged, and
    the gate that decides whether a drop on it is forwarded to the grid. */
module TimeSlotCell {
  import opened ScheduleModels
  import opened DragDrop

  /** What a cell forwards to the grid when a legal drop lands on it. */
  datatype DropRequest = DropRequest(dragData: DragDropData, targetWeekdayId: string, targetTimeSlotId: string)

  /** The `slotState` getter: the state of a cell given its optional allocation. */
  function Classify(allocation: Option<Allocation>): (state: AllocationState)
    ensures state == Empty <==> allocation.None?
    ensures state == DisciplineOnly <==> allocation.Some? && |allocation.value.professorIds| == 0
    ensures state == DisciplineWithProfessors <==> allocation.Some? && |allocation.value.professorIds| > 0
  {
    if allocation.None? then Empty
    else if |allocation.value.professorIds| == 0 then DisciplineOnly
    else DisciplineWithProfessors
  }

  /** The class names of a cell, in the order they are pushed. */
  function SlotClassList(isDragOver: bool, dragData: Option<DragDropData>, state: AllocationState): (classes: seq<string>)
    ensures |classes| == (if isDragOver then 3 else 2)
    ensures classes[0] == "time-slot" && classes[|classes| - 1] == "state-" + state.Name()
    ensures "drag-over" in classes <==> isDragOver && dragData.Some? && CanDropInSlot(state, dragData.value)
    ensures "drag-invalid" in classes <==> isDragOver && !(dragData.Some? && CanDropInSlot(state, dragData.value))
  {
    var stateClass := "state-" + state.Name();
    assert stateClass[0] == 's';
    var dragClasses :=
      if !isDragOver then []
      else if dragData.Some? && CanDropInSlot(state, dragData.value) then ["drag-over"]
      else ["drag-invalid"];
    ["time-slot"] + dragClasses + [stateClass]
  }

  /** `parts.join(' ')` */
  function JoinWithSpace(parts: seq<string>): string
  {
    if |parts| == 0 then ""
    else if |parts| == 1 then parts[0]
    else parts[0] + " " + JoinWithSpace(parts[1..])
  }

  /** Whether a drop is forwarded, and with which target: a drop from the
      cell's own container is ignored, and an illegal one is swallowed. */
  function DropOutcome(sameContainer: bool, state: AllocationState, dragData: DragDropData,
                       weekdayId: string, timeSlotId: string): (emitted: Option<DropRequest>)
    ensures sameContainer ==> emitted.None?
    ensures emitted.Some? <==> !sameContainer && CanDropInSlot(state, dragData)
    ensures emitted.Some? ==> emitted.value == DropRequest(dragData, weekdayId, timeSlotId)
  {
    if sameContainer then None
    else if CanDropInSlot(state, dragData) then Some(DropRequest(dragData, weekdayId, timeSlotId))
    else None
  }

  /** A cell of the grid. `allocation` is the enriched record the grid looks
      up for the cell; the payload being dragged is read from the session. */
  class TimeSlotComponent {
    var weekdayId: string
    var timeSlotId: string
    var allocation: Option<Allocation>
    var isDragOver: bool
    const dragDropService: DragDropService

    constructor (service: DragDropService, weekdayId: string, timeSlotId: string, allocation: Option<Allocation>)
      ensures dragDropService == service
      ensures this.weekdayId == weekdayId && this.timeSlotId == timeSlotId && this.allocation == allocation
      ensures !isDragOver
    {
      dragDropService := service;
      this.weekdayId := weekdayId;
      this.timeSlotId := timeSlotId;
      this.allocation := allocation;
      isDragOver := false;
    }

    /** The `slotState` getter over the cell's allocation input. */
    function SlotState(): (state: AllocationState)
      reads this
      ensures state == Empty <==> allocation.None?
      ensures state != Empty ==> (state == DisciplineWithProfessors <==> |allocation.value.professorIds| > 0)
    {
      Classify(allocation)
    }

    /** The class attribute of the cell. */
    method GetSlotClasses() returns (result: string)
      ensures result == JoinWithSpace(SlotClassList(isDragOver, dragDropService.dragData, SlotState()))
    {
      var classes := ["time-slot"];
      if isDragOver {
        var dragData := dragDropService.dragData;
        if dragData.Some? && CanDropInSlot(SlotState(), dragData.value) {
          classes := classes + ["drag-over"];
        } else {
          classes := classes + ["drag-invalid"];
        }
      }
      classes := classes + ["state-" + SlotState().Name()];
      result := JoinWithSpace(classes);
    }

    /** The payload offered when this cell's allocation is dragged away. */
    function CreateDragData(data: Allocation): (dragData: DragDropData)
      reads this
      ensures dragData.AllocationDrag? && dragData.allocation == data
      ensures dragData.sourceSlotId == Some(weekdayId + "-" + timeSlotId)
      ensures forall state :: GetDropEffect(state, dragData) == Move
    {
      AllocationDrag(data, Some(weekdayId + "-" + timeSlotId))
    }

    method OnDragEnter()
      modifies this`isDragOver
      ensures isDragOver
    {
      isDragOver := true;
    }

    method OnDragExit()
      modifies this`isDragOver
      ensures !isDragOver
    {
      isDragOver := false;
    }

    /** A drop on the cell; `sameContainer` says whether the item came from
        this cell's own drop list. Returns the request emitted to the grid, if any. */
    method OnDrop(sameContainer: bool, dragData: DragDropData) returns (emitted: Option<DropRequest>)
      modifies this`isDragOver
      ensures !isDragOver
      ensures emitted == DropOutcome(sameContainer, SlotState(), dragData, weekdayId, timeSlotId)
    {
      isDragOver := false;
      if sameContainer {
        return None;
      }
      if CanDropInSlot(SlotState(), dragData) {
        emitted := Some(DropRequest(dragData, weekdayId, timeSlotId));
      } else {
        emitted := None;
      }
    }
  }
}
