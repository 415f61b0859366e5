/** The drop-compatibility rules and the drag session of the timetable grid. */
module DragDrop {
  import opened ScheduleModels

  /** The effect a legal drop has on the dragged item: 'copy', 'move' or 'none'. */
  datatype DropEffect = Copy | Move | NoEffect
  {
    function Name(): string
    {
      match this
      case Copy => "copy"
      case Move => "move"
      case NoEffect => "none"
    }
  }

  /** May `dragData` land on a cell in `slotState`? A switch on the payload's
      tag alone: it takes no session state and depends on nothing else. */
  function CanDropInSlot(slotState: AllocationState, dragData: DragDropData): (ok: bool)
    ensures dragData.DisciplineDrag? ==> ok
    ensures dragData.ProfessorDrag? ==> (ok <==> slotState != Empty)
    ensures dragData.AllocationDrag? ==> ok
    ensures dragData.OtherDrag? ==> !ok
  {
    var tag := dragData.Type();
    if tag == "discipline" then
      slotState == Empty || slotState == DisciplineOnly || slotState == DisciplineWithProfessors
    else if tag == "professor" then
      slotState == DisciplineOnly || slotState == DisciplineWithProfessors
    else if tag == "allocation" then
      true
    else
      false
  }

  /** The drop effect reported to the browser for a payload over a cell. */
  function GetDropEffect(slotState: AllocationState, dragData: DragDropData): (effect: DropEffect)
    ensures effect == NoEffect <==> !CanDropInSlot(slotState, dragData)
    ensures effect == Move <==> dragData.AllocationDrag? && Truthy(dragData.sourceSlotId)
    ensures effect == Copy <==>
      CanDropInSlot(slotState, dragData) && !(dragData.AllocationDrag? && Truthy(dragData.sourceSlotId))
  {
    if !CanDropInSlot(slotState, dragData) then NoEffect
    else if dragData.Type() == "allocation" && Truthy(dragData.sourceSlotId) then Move
    else Copy
  }

  /** The single process-wide drag session: the payload being dragged, if any,
      and whether a drag is in progress. */
  class DragDropService {
    var dragData: Option<DragDropData>
    var isDragging: bool

    /** A payload is held exactly while a drag is in progress. */
    ghost predicate Valid()
      reads this
    {
      isDragging <==> dragData.Some?
    }

    constructor ()
      ensures Valid()
      ensures dragData == None && !isDragging
    {
      dragData := None;
      isDragging := false;
    }

    /** Starts a drag session, replacing any payload held before. */
    method SetDragData(data: DragDropData)
      modifies this
      ensures Valid()
      ensures GetDragData() == Some(data) && isDragging
    {
      dragData := Some(data);
      isDragging := true;
    }

    /** Ends the drag session, whatever its outcome. */
    method ClearDragData()
      modifies this
      ensures Valid()
      ensures GetDragData() == None && !isDragging
    {
      dragData := None;
      isDragging := false;
    }

    /** The payload being dragged; present exactly while a drag is in progress. */
    function GetDragData(): (data: Option<DragDropData>)
      requires Valid()
      reads this
      ensures data.Some? <==> isDragging
    {
      dragData
    }
  }
}
