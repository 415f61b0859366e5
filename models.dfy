/** Entities of the weekly timetable grid: reference data, allocations,
    allocation requests, the drag payload and the three-valued cell state. */
module ScheduleModels {

  datatype Option<T> = None | Some(value: T)

  /** JavaScript truthiness of an optional string: absent and "" are false. */
  predicate Truthy(s: Option<string>)
  {
    s.Some? && s.value != ""
  }

  /** A discipline of the palette (immutable reference data). */
  datatype Discipline = Discipline(id: string, name: string, code: string, color: Option<string>, duration: int)

  /** A professor of the palette (immutable reference data). */
  datatype Professor = Professor(id: string, name: string, email: string, department: string)

  datatype Weekday = Weekday(id: string, name: string, shortName: string, order: int)

  /** A row of the grid. `weekdayId` and the cached `slotState` are optional:
      a slot may carry no cached state at all. */
  datatype TimeSlot = TimeSlot(
    id: string,
    startTime: string,
    endTime: string,
    order: int,
    weekdayId: Option<string>,
    slotState: Option<AllocationState>)

  /** One discipline and its professors bound to one (weekday, time slot) cell.
      `discipline` and `professors` are optional enrichment resolved from the ids. */
  datatype Allocation = Allocation(
    id: string,
    disciplineId: string,
    professorIds: seq<string>,
    weekdayId: string,
    timeSlotId: string,
    discipline: Option<Discipline>,
    professors: Option<seq<Professor>>)

  datatype ScheduleGridData = ScheduleGridData(
    weekdays: seq<Weekday>,
    timeSlots: seq<TimeSlot>,
    allocations: seq<Allocation>,
    disciplines: seq<Discipline>,
    professors: seq<Professor>)

  /** What a caller sends to create or update an allocation: the cell is
      always given, the discipline and the professors may be absent. */
  datatype AllocationRequest = AllocationRequest(
    disciplineId: Option<string>,
    professorIds: Option<seq<string>>,
    weekdayId: string,
    timeSlotId: string)

  /** A runtime `type` tag other than the three declared ones. */
  type ForeignTag = t: string | t !in {"discipline", "professor", "allocation"} witness ""

  /** The payload of a drag gesture, tagged with what is being dragged.
      `OtherDrag` stands for an item whose runtime `type` tag is none of the
      three declared ones: a drop handler receives the drag item's data
      through an unchecked cast, so such an item can reach it. */
  datatype DragDropData =
    | DisciplineDrag(discipline: Discipline, sourceSlotId: Option<string>)
    | ProfessorDrag(professor: Professor, sourceSlotId: Option<string>)
    | AllocationDrag(allocation: Allocation, sourceSlotId: Option<string>)
    | OtherDrag(tag: ForeignTag, sourceSlotId: Option<string>)
  {
    /** The runtime `type` field of the payload: each variant carries its own tag. */
    function Type(): (t: string)
      ensures DisciplineDrag? <==> t == "discipline"
      ensures ProfessorDrag? <==> t == "professor"
      ensures AllocationDrag? <==> t == "allocation"
      ensures OtherDrag? <==> t !in {"discipline", "professor", "allocation"}
    {
      match this
      case DisciplineDrag(_, _) => "discipline"
      case ProfessorDrag(_, _) => "professor"
      case AllocationDrag(_, _) => "allocation"
      case OtherDrag(tag, _) => tag
    }
  }

  /** The derived state of a cell. */
  datatype AllocationState = Empty | DisciplineOnly | DisciplineWithProfessors
  {
    /** The enum's string value, used to build the `state-<value>` CSS class. */
    function Name(): string
    {
      match this
      case Empty => "empty"
      case DisciplineOnly => "discipline-only"
      case DisciplineWithProfessors => "discipline-with-professors"
    }
  }

  /** The three states carry three distinct string values. */
  lemma StateNamesDistinct(s: AllocationState, t: AllocationState)
    ensures s.Name() == t.Name() <==> s == t
  {
  }
}
