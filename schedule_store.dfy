/** The in-memory allocation store (the mock schedule service): a list of
    allocations that is appended to, overwritten by index and spliced, the
    published schedule data, and the cached per-slot state. Every
    asynchronous call is one synchronous state transition here. */
module ScheduleStore {
  import opened ScheduleModels
  import opened ArrayOps

  /** `a.id === id` */
  function HasId(id: string): Allocation -> bool
  {
    (a: Allocation) => a.id == id
  }

  /** `a.weekdayId === weekdayId && a.timeSlotId === timeSlotId` */
  function AtCell(weekdayId: string, timeSlotId: string): Allocation -> bool
  {
    (a: Allocation) => a.weekdayId == weekdayId && a.timeSlotId == timeSlotId
  }

  /** `a.timeSlotId === timeSlotId`, whatever the weekday. */
  function InTimeSlot(timeSlotId: string): Allocation -> bool
  {
    (a: Allocation) => a.timeSlotId == timeSlotId
  }

  /** Position of the first allocation with the given id, or -1. */
  function IndexOfId(allocations: seq<Allocation>, id: string): int
  {
    FindIndex(allocations, HasId(id))
  }

  /** The first allocation at the cell, if any. */
  function FindBySlot(allocations: seq<Allocation>, weekdayId: string, timeSlotId: string): Option<Allocation>
  {
    Find(allocations, AtCell(weekdayId, timeSlotId))
  }

  /** Every allocation at the cell, in list order. */
  function RecordsAt(allocations: seq<Allocation>, weekdayId: string, timeSlotId: string): seq<Allocation>
  {
    Filter(allocations, AtCell(weekdayId, timeSlotId))
  }

  function Ids(allocations: seq<Allocation>): seq<string>
  {
    seq(|allocations|, k requires 0 <= k < |allocations| => allocations[k].id)
  }

  /** No two allocations share an id. */
  ghost predicate UniqueIds(allocations: seq<Allocation>)
  {
    forall i, j :: 0 <= i < j < |allocations| ==> allocations[i].id != allocations[j].id
  }

  /** No two allocations share a (weekdayId, timeSlotId) cell: the grid's central invariant. */
  ghost predicate UniqueCells(allocations: seq<Allocation>)
  {
    forall i, j :: 0 <= i < j < |allocations| ==>
      allocations[i].weekdayId != allocations[j].weekdayId || allocations[i].timeSlotId != allocations[j].timeSlotId
  }

  /** `s || fallback` for an optional string. */
  function OrString(s: Option<string>, fallback: string): string
  {
    if Truthy(s) then s.value else fallback
  }

  /** `s || fallback` for an optional array: an array is truthy even when empty. */
  function OrList(s: Option<seq<string>>, fallback: seq<string>): seq<string>
  {
    if s.Some? then s.value else fallback
  }

  /** The record `createAllocation` builds for a request under a fresh id. */
  function NewAllocation(id: string, request: AllocationRequest): (a: Allocation)
    ensures a.id == id
    ensures AtCell(request.weekdayId, request.timeSlotId)(a)
    ensures a.disciplineId == (if request.disciplineId.Some? then request.disciplineId.value else "")
    ensures a.professorIds == (if request.professorIds.Some? then request.professorIds.value else [])
    ensures a.discipline.None? && a.professors.None?
  {
    Allocation(id, OrString(request.disciplineId, ""), OrList(request.professorIds, []),
               request.weekdayId, request.timeSlotId, None, None)
  }

  /** The record `updateAllocation` writes over `current`: every field of
      `current` spread, then the request's fields on top. */
  function Merged(current: Allocation, request: AllocationRequest): (a: Allocation)
    ensures a.id == current.id
    ensures AtCell(request.weekdayId, request.timeSlotId)(a)
    ensures a.disciplineId == (if Truthy(request.disciplineId) then request.disciplineId.value else current.disciplineId)
    ensures a.professorIds == (if request.professorIds.Some? then request.professorIds.value else current.professorIds)
    ensures a.discipline == current.discipline && a.professors == current.professors
  {
    current.(disciplineId := OrString(request.disciplineId, current.disciplineId),
             professorIds := OrList(request.professorIds, current.professorIds),
             weekdayId := request.weekdayId,
             timeSlotId := request.timeSlotId)
  }

  /** The list after `createAllocation`: one record appended at the end. */
  function Created(allocations: seq<Allocation>, id: string, request: AllocationRequest): (r: seq<Allocation>)
    ensures |r| == |allocations| + 1
    ensures r[..|allocations|] == allocations
    ensures r[|allocations|] == NewAllocation(id, request)
  {
    allocations + [NewAllocation(id, request)]
  }

  /** The list after `updateAllocation`: only the first record with the id
      changes; an unknown id leaves the list as it was. */
  function Updated(allocations: seq<Allocation>, id: string, request: AllocationRequest): (r: seq<Allocation>)
    ensures |r| == |allocations|
    ensures IndexOfId(allocations, id) == -1 ==> r == allocations
    ensures forall k :: 0 <= k < |r| && k != IndexOfId(allocations, id) ==> r[k] == allocations[k]
    ensures 0 <= IndexOfId(allocations, id) ==>
      var i := IndexOfId(allocations, id);
      allocations[i].id == id && r[i] == Merged(allocations[i], request)
    ensures Ids(r) == Ids(allocations)
  {
    var i := IndexOfId(allocations, id);
    if i == -1 then allocations else allocations[i := Merged(allocations[i], request)]
  }

  /** The list after `deleteAllocation`: the first record with the id is
      spliced out; an unknown id leaves the list as it was. */
  function Deleted(allocations: seq<Allocation>, id: string): (r: seq<Allocation>)
    ensures IndexOfId(allocations, id) == -1 ==> r == allocations
    ensures 0 <= IndexOfId(allocations, id) ==>
      var i := IndexOfId(allocations, id);
      && allocations[i].id == id
      && |r| == |allocations| - 1
      && (forall k :: 0 <= k < i ==> r[k] == allocations[k])
      && (forall k :: i <= k < |r| ==> r[k] == allocations[k + 1])
  {
    var i := IndexOfId(allocations, id);
    if i == -1 then allocations else allocations[..i] + allocations[i + 1..]
  }

  /** With unique ids, deleting an id leaves no record with it and keeps every other record. */
  lemma DeletedRemovesExactlyId(allocations: seq<Allocation>, id: string)
    requires UniqueIds(allocations)
    ensures forall a :: a in Deleted(allocations, id) ==> a.id != id && a in allocations
    ensures forall a :: a in allocations && a.id != id ==> a in Deleted(allocations, id)
    ensures UniqueIds(Deleted(allocations, id))
  {
  }

  /** The publication after a write: the same data, carrying the current list. */
  function Republished(data: Option<ScheduleGridData>, allocations: seq<Allocation>): Option<ScheduleGridData>
  {
    if data.Some? then Some(data.value.(allocations := allocations)) else None
  }

  /** `allocation?.professors?.length ?? 0`: reads the enrichment field, not `professorIds`. */
  function EnrichedProfessorCount(a: Allocation): nat
  {
    if a.professors.Some? then |a.professors.value| else 0
  }

  /** The state `setAdditionalProperties` caches on a time slot: keyed on the
      time slot id alone, whatever the weekday, and read from the first
      allocation in that time slot. */
  function CachedSlotState(allocations: seq<Allocation>, timeSlotId: string): (s: AllocationState)
    ensures s == Empty <==> forall k :: 0 <= k < |allocations| ==> allocations[k].timeSlotId != timeSlotId
    ensures s == DisciplineWithProfessors <==>
      var first := Find(allocations, InTimeSlot(timeSlotId));
      first.Some? && EnrichedProfessorCount(first.value) > 0
  {
    match Find(allocations, InTimeSlot(timeSlotId))
    case None => Empty
    case Some(a) => if EnrichedProfessorCount(a) > 0 then DisciplineWithProfessors else DisciplineOnly
  }

  /** Records the store creates carry no enrichment, so the cached state of a
      slot is never DISCIPLINE_WITH_PROFESSORS for them, however many
      professor ids they hold. */
  lemma CachedStateIgnoresProfessorIds(allocations: seq<Allocation>, timeSlotId: string)
    requires forall k :: 0 <= k < |allocations| ==> allocations[k].professors.None?
    ensures CachedSlotState(allocations, timeSlotId) != DisciplineWithProfessors
  {
  }

  /** The store behind the grid. `mockAllocations` is the list it changes in
      place; `scheduleData` is the last value it published (none before the
      first load). The published data shares the list itself, so it always
      shows the current records. */
  class ScheduleService {
    const mockWeekdays: seq<Weekday>
    const mockTimeSlots: seq<TimeSlot>
    const mockDisciplines: seq<Discipline>
    const mockProfessors: seq<Professor>
    var mockAllocations: seq<Allocation>
    var scheduleData: Option<ScheduleGridData>

    ghost predicate Valid()
      reads this
    {
      scheduleData.Some? ==> scheduleData.value.allocations == mockAllocations
    }

    /** The reference tables are supplied by the caller; the store starts
        with no allocations and nothing published. */
    constructor (weekdays: seq<Weekday>, timeSlots: seq<TimeSlot>, disciplines: seq<Discipline>, professors: seq<Professor>)
      ensures Valid()
      ensures mockWeekdays == weekdays && mockTimeSlots == timeSlots
      ensures mockDisciplines == disciplines && mockProfessors == professors
      ensures mockAllocations == [] && scheduleData == None
    {
      mockWeekdays, mockTimeSlots := weekdays, timeSlots;
      mockDisciplines, mockProfessors := disciplines, professors;
      mockAllocations := [];
      scheduleData := None;
    }

    /** Loads the grid: publishes the reference tables and the current list. */
    method GetScheduleData() returns (data: ScheduleGridData)
      modifies this
      ensures Valid()
      ensures data == ScheduleGridData(mockWeekdays, mockTimeSlots, mockAllocations, mockDisciplines, mockProfessors)
      ensures scheduleData == Some(data)
      ensures mockAllocations == old(mockAllocations)
    {
      data := ScheduleGridData(mockWeekdays, mockTimeSlots, mockAllocations, mockDisciplines, mockProfessors);
      scheduleData := Some(data);
    }

    /** Position of the first record with the id, or -1. */
    method FindIndexById(id: string) returns (index: int)
      ensures index == IndexOfId(mockAllocations, id)
      ensures index == -1 <==> id !in Ids(mockAllocations)
    {
      index := 0;
      while index < |mockAllocations|
        invariant 0 <= index <= |mockAllocations|
        invariant forall k :: 0 <= k < index ==> mockAllocations[k].id != id
      {
        if mockAllocations[index].id == id {
          assert Ids(mockAllocations)[index] == id;
          return;
        }
        index := index + 1;
      }
      assert forall k :: 0 <= k < |mockAllocations| ==> Ids(mockAllocations)[k] == mockAllocations[k].id;
      index := -1;
    }

    /** Appends the request's record under `freshId` (the caller's fresh id). */
    method CreateAllocation(freshId: string, request: AllocationRequest) returns (created: Allocation)
      requires Valid()
      modifies this
      ensures Valid()
      ensures created == NewAllocation(freshId, request)
      ensures mockAllocations == Created(old(mockAllocations), freshId, request)
      ensures scheduleData == Republished(old(scheduleData), mockAllocations)
    {
      var allocation := NewAllocation(freshId, request);
      mockAllocations := mockAllocations + [allocation];
      UpdateScheduleData();
      created := allocation;
    }

    /** Overwrites the first record with the id; returns it, or nothing when
        no record has the id (the list is then unchanged). */
    method UpdateAllocation(id: string, request: AllocationRequest) returns (updated: Option<Allocation>)
      requires Valid()
      modifies this
      ensures Valid()
      ensures mockAllocations == Updated(old(mockAllocations), id, request)
      ensures scheduleData == Republished(old(scheduleData), mockAllocations)
      ensures updated.None? <==> id !in Ids(old(mockAllocations))
      ensures updated.Some? ==> updated.value.id == id && updated.value in mockAllocations
      ensures updated.Some? ==>
        var i := IndexOfId(old(mockAllocations), id);
        0 <= i && updated.value == mockAllocations[i] && updated.value == Merged(old(mockAllocations)[i], request)
    {
      var allocationIndex := FindIndexById(id);
      if allocationIndex != -1 {
        mockAllocations := mockAllocations[allocationIndex := Merged(mockAllocations[allocationIndex], request)];
        updated := Some(mockAllocations[allocationIndex]);
      } else {
        updated := None;
      }
      UpdateScheduleData();
    }

    /** Splices out the first record with the id; always reports success. */
    method DeleteAllocation(id: string) returns (ok: bool)
      requires Valid()
      modifies this
      ensures Valid()
      ensures ok
      ensures mockAllocations == Deleted(old(mockAllocations), id)
      ensures scheduleData == Republished(old(scheduleData), mockAllocations)
    {
      var index := FindIndexById(id);
      if index != -1 {
        mockAllocations := mockAllocations[..index] + mockAllocations[index + 1..];
      }
      UpdateScheduleData();
      ok := true;
    }

    /** Republishes the current list, and does nothing before the first load. */
    method UpdateScheduleData()
      modifies this`scheduleData
      ensures Valid()
      ensures scheduleData == Republished(old(scheduleData), mockAllocations)
    {
      if scheduleData.Some? {
        scheduleData := Some(scheduleData.value.(allocations := mockAllocations));
      }
    }

    /** The first record at the cell, if any. */
    method GetAllocationBySlot(weekdayId: string, timeSlotId: string) returns (found: Option<Allocation>)
      ensures found == FindBySlot(mockAllocations, weekdayId, timeSlotId)
      ensures found.None? <==> forall a :: a in mockAllocations ==> a.weekdayId != weekdayId || a.timeSlotId != timeSlotId
    {
      var i := 0;
      while i < |mockAllocations|
        invariant 0 <= i <= |mockAllocations|
        invariant forall k :: 0 <= k < i ==> !AtCell(weekdayId, timeSlotId)(mockAllocations[k])
      {
        var a := mockAllocations[i];
        if a.weekdayId == weekdayId && a.timeSlotId == timeSlotId {
          return Some(a);
        }
        i := i + 1;
      }
      return None;
    }

    /** Stamps every time slot of `data` with its cached state; with no data,
        nothing. */
    method SetAdditionalProperties(data: Option<ScheduleGridData>) returns (stamped: Option<ScheduleGridData>)
      ensures stamped.None? <==> data.None?
      ensures data.Some? ==>
        && stamped.value.(timeSlots := data.value.timeSlots) == data.value
        && |stamped.value.timeSlots| == |data.value.timeSlots|
        && forall k :: 0 <= k < |data.value.timeSlots| ==>
             var slot := data.value.timeSlots[k];
             stamped.value.timeSlots[k] == slot.(slotState := Some(CachedSlotState(data.value.allocations, slot.id)))
    {
      if data.None? {
        return None;
      }
      var allocations := data.value.allocations;
      var timeSlotIds := seq(|allocations|, k requires 0 <= k < |allocations| => allocations[k].timeSlotId);
      var slots := data.value.timeSlots;
      var result: seq<TimeSlot> := [];
      var i := 0;
      while i < |slots|
        invariant 0 <= i <= |slots|
        invariant |result| == i
        invariant forall k :: 0 <= k < i ==>
          result[k] == slots[k].(slotState := Some(CachedSlotState(allocations, slots[k].id)))
      {
        var slot := slots[i];
        if slot.id in timeSlotIds {
          var k :| 0 <= k < |timeSlotIds| && timeSlotIds[k] == slot.id;
          assert InTimeSlot(slot.id)(allocations[k]);
        } else {
          forall k | 0 <= k < |allocations| ensures !InTimeSlot(slot.id)(allocations[k]) {
            assert timeSlotIds[k] == allocations[k].timeSlotId;
          }
        }
        var state := if slot.id in timeSlotIds then DisciplineOnly else Empty;
        if slot.id in timeSlotIds {
          var allocation := Find(allocations, InTimeSlot(slot.id));
          state := if allocation.Some? && EnrichedProfessorCount(allocation.value) > 0
                   then DisciplineWithProfessors else DisciplineOnly;
        }
        result := result + [slot.(slotState := Some(state))];
        i := i + 1;
      }
      stamped := Some(data.value.(timeSlots := result));
    }
  }
}
