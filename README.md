# Timetable grid allocation model

This project models the allocation state machine behind a weekly timetable grid written in Angular. The grid has one cell per (weekday, time slot). A cell holds at most one allocation: a discipline, and optionally professors. Users drag disciplines, professors or existing allocations onto cells.

The model has seven parts:

- **Data model** (`models.dfy`, module `ScheduleModels`). The records become datatypes: `Allocation`, `AllocationRequest`, `TimeSlot`, the tagged drag payload `DragDropData`, and the three-valued `AllocationState`. Optional TypeScript fields are `Option`s.
  - The payload has a fourth variant, `OtherDrag`. It covers a runtime tag outside the declared three, which `onDrop` can receive because it casts the dropped item unchecked.
- **Searches** (`array_ops.dfy`, module `ArrayOps`). `findIndex`, `find` and `filter` are specified once over sequences.
- **Drag session and drop rules** (`drag_drop.dfy`, module `DragDrop`). `canDropInSlot` and `getDropEffect` are pure functions. The session is a class with two fields.
- **Store** (`schedule_store.dfy`, module `ScheduleStore`). The in-memory service is a class whose list `mockAllocations` is appended to, overwritten by index and spliced.
  - Each change is proved against a function on the old list: `Created`, `Updated`, `Deleted`.
  - The published data shares the list. The class invariant `Valid()` states that sharing.
- **Cell** (`time_slot.dfy`, module `TimeSlotCell`). The state of a cell, its CSS classes, the payload it offers, and the gate deciding whether a drop is forwarded to the grid.
- **Grid** (`schedule_grid.dfy`, module `ScheduleGrid`):
  - the enriched lookup `getAllocation`;
  - the drop reconciler, with one function per handler: `DisciplineDropped`, `ProfessorDropped`, `AllocationMoved` and `Reconciled`;
  - the handler methods. Each is proved to leave the store's list equal to its reconciler function of the old list;
  - the drop-list ids.
- **Walkthrough** (`scenarios.dfy`, module `ScheduleScenarios`). A discipline onto an empty cell, a professor onto it, a professor onto an empty cell, and a move onto an empty cell. They are stated and proved both on the reconciler and end to end through cell, grid and store.

The main invariant is `ScheduleGrid.WellFormed`. It says:
- at most one allocation per (weekdayId, timeSlotId);
- ids are unique;
- no professor is listed twice in a record;
- every record has a discipline.

The store does not enforce any of this; the handlers maintain it. `ReconciledKeepsWellFormed` proves that every drop preserves it under four conditions:
- the grid has loaded its data;
- a created record gets an id no record has;
- a dropped discipline has a non-empty id;
- a moved payload lists no professor twice.

Before the first load the grid sees every cell as empty. A discipline drop then creates a record even on an occupied cell, and `DropBeforeLoadIgnoresOccupant` shows that this breaks the one-record-per-cell rule.

JavaScript `||` is modelled as written:
- `disciplineId || fallback` falls back when the value is absent or the empty string;
- `professorIds || fallback` falls back only when the value is absent, because an empty array is truthy.

Behaviour kept as the code has it:
- `setAdditionalProperties` keys the cached slot state on `timeSlotId` alone, ignoring the weekday. It reads the enrichment field `professors`, not `professorIds` (`CachedStateIgnoresProfessorIds`).
- The discipline drop-list ids list only EMPTY slots, although `canDropInSlot` accepts a discipline on every state.
- A slot with no cached state counts as not EMPTY, so it goes to the professor list.
- A slot without a weekday prints `undefined` in its drop-list id.

## Model

| member | source | states |
|---|---|---|
| ScheduleModels.DragDropData.Type | src/models/schedule.models.ts:57-61 | A discipline payload is tagged exactly "discipline", a professor payload exactly "professor", an allocation payload exactly "allocation". Only a foreign payload carries any other tag |
| ScheduleModels.StateNamesDistinct | src/models/schedule.models.ts:63-67 | The three allocation states have three distinct string values |
| ArrayOps.FindIndex | src/services/schedule.service.ts:111 | Returns the index of the first element satisfying the predicate, or -1 exactly when none does |
| ArrayOps.Find | src/services/schedule.service.ts:160-162 | Returns nothing exactly when no element satisfies the predicate; otherwise returns the first element that does |
| ArrayOps.Filter | src/components/schedule-grid/schedule-grid.component.ts:85-87 | Keeps exactly the elements satisfying the predicate, and is no longer than its input |
| DragDrop.CanDropInSlot | src/services/drag-drop.service.ts:29-49 | A switch on the payload's tag. A discipline may land on every state. A professor may land exactly on the non-EMPTY states. An allocation may land anywhere. A foreign tag is refused. The result depends on state and payload only |
| DragDrop.GetDropEffect | src/services/drag-drop.service.ts:51-62 | Returns `none` exactly when the drop is illegal. Returns `move` exactly for an allocation payload with a non-empty source slot. Returns `copy` for every other legal drop |
| DragDrop.DragDropService.constructor | src/services/drag-drop.service.ts:9-13 | A new session holds no payload and is not dragging |
| DragDrop.DragDropService.SetDragData | src/services/drag-drop.service.ts:15-18 | Afterwards `getDragData` returns the payload and a drag is in progress |
| DragDrop.DragDropService.ClearDragData | src/services/drag-drop.service.ts:20-23 | Afterwards there is no payload and no drag is in progress |
| DragDrop.DragDropService.GetDragData | src/services/drag-drop.service.ts:25-27 | A payload is present exactly while a drag is in progress |
| ScheduleStore.NewAllocation | src/services/schedule.service.ts:91-97 | A created record has the given id and the request's cell. Its disciplineId defaults to "" and its professorIds to [] |
| ScheduleStore.Merged | src/services/schedule.service.ts:114-120 | An updated record keeps its id and moves to the request's cell. It keeps its disciplineId when the request's is absent or empty, and its professorIds when the request's are absent |
| ScheduleStore.Created | src/services/schedule.service.ts:102 | Appends exactly one record at the end and leaves the existing ones unchanged |
| ScheduleStore.Updated | src/services/schedule.service.ts:111-121 | An unknown id leaves the list unchanged. A known id changes only its first index, as `Merged` says. Ids stay the same |
| ScheduleStore.Deleted | src/services/schedule.service.ts:134-138 | An unknown id leaves the list unchanged. A known id removes only its first record, and the rest keep their order |
| ScheduleStore.DeletedRemovesExactlyId | src/services/schedule.service.ts:134-138 | With unique ids, deletion removes the record with that id and keeps every other record. Ids stay unique |
| ScheduleStore.CachedSlotState | src/services/schedule.service.ts:21-30 | A slot is EMPTY exactly when no record has its timeSlotId. It is DISCIPLINE_WITH_PROFESSORS exactly when the first such record has enriched professors |
| ScheduleStore.CachedStateIgnoresProfessorIds | src/services/schedule.service.ts:27-29 | Records without enrichment never give DISCIPLINE_WITH_PROFESSORS, whatever their professorIds |
| ScheduleStore.ScheduleService.constructor | src/services/schedule.service.ts:37-68 | The store starts with the reference tables, no allocations and nothing published |
| ScheduleStore.ScheduleService.GetScheduleData | src/services/schedule.service.ts:70-87 | Publishes the reference tables with the store's own list, and changes no allocation |
| ScheduleStore.ScheduleService.FindIndexById | src/services/schedule.service.ts:111 | The loop finds the first index with the id, and -1 exactly when the id is absent |
| ScheduleStore.ScheduleService.CreateAllocation | src/services/schedule.service.ts:89-107 | Returns the new record, appends it to the list, and republishes |
| ScheduleStore.ScheduleService.UpdateAllocation | src/services/schedule.service.ts:109-130 | The list becomes `Updated` of the old list, and is republished. Nothing is returned exactly when the id was unknown. Otherwise it returns the merged record, at the first index that had the id |
| ScheduleStore.ScheduleService.DeleteAllocation | src/services/schedule.service.ts:132-147 | The list becomes `Deleted` of the old list and is republished. The result is always true |
| ScheduleStore.ScheduleService.UpdateScheduleData | src/services/schedule.service.ts:149-157 | Replaces the published allocations with the current list. Does nothing before the first load |
| ScheduleStore.ScheduleService.GetAllocationBySlot | src/services/schedule.service.ts:159-163 | Returns the first record at (weekdayId, timeSlotId); nothing exactly when none is there |
| ScheduleStore.ScheduleService.SetAdditionalProperties | src/services/schedule.service.ts:19-32 | Every slot gets the cached state of its timeSlotId and keeps all other fields. Nothing happens without data |
| TimeSlotCell.Classify | src/components/time-slot/time-slot.component.ts:252-262 | EMPTY exactly without an allocation. DISCIPLINE_ONLY exactly with an allocation that has no professorIds. DISCIPLINE_WITH_PROFESSORS otherwise |
| TimeSlotCell.SlotClassList | src/components/time-slot/time-slot.component.ts:264-278 | Starts with `time-slot` and ends with `state-<state>`. `drag-over` appears exactly when dragged over with a legal payload present. `drag-invalid` appears exactly when dragged over otherwise. Neither appears when not dragged over |
| TimeSlotCell.DropOutcome | src/components/time-slot/time-slot.component.ts:299-311 | A drop from the cell's own container emits nothing. Otherwise the drop emits exactly when it is legal, carrying the payload and this cell's coordinates |
| TimeSlotCell.TimeSlotComponent.constructor | src/components/time-slot/time-slot.component.ts:213-237 | A cell starts with its inputs and not dragged over |
| TimeSlotCell.TimeSlotComponent.SlotState | src/components/time-slot/time-slot.component.ts:252-262 | The cell is EMPTY exactly without an allocation. Otherwise it is DISCIPLINE_WITH_PROFESSORS exactly when its allocation lists professors |
| TimeSlotCell.TimeSlotComponent.GetSlotClasses | src/components/time-slot/time-slot.component.ts:264-278 | The class attribute is the space-joined `SlotClassList` for the session's payload and the cell's state |
| TimeSlotCell.TimeSlotComponent.CreateDragData | src/components/time-slot/time-slot.component.ts:280-286 | Tags the record as an allocation from source `<weekdayId>-<timeSlotId>`, so its drop effect is `move` on every state |
| TimeSlotCell.TimeSlotComponent.OnDragEnter | src/components/time-slot/time-slot.component.ts:288-290 | Sets isDragOver |
| TimeSlotCell.TimeSlotComponent.OnDragExit | src/components/time-slot/time-slot.component.ts:292-294 | Clears isDragOver |
| TimeSlotCell.TimeSlotComponent.OnDrop | src/components/time-slot/time-slot.component.ts:296-312 | Always clears isDragOver, and emits what `DropOutcome` says |
| ScheduleGrid.Enriched | src/components/schedule-grid/schedule-grid.component.ts:83-93 | Enrichment keeps every stored field. The discipline is the one with the record's disciplineId, or absent when there is none. The professors are exactly those whose id the record lists |
| ScheduleGrid.LookupAllocation | src/components/schedule-grid/schedule-grid.component.ts:75-95 | Returns nothing before the first load or when no record is at the cell. Otherwise returns the first record at the cell, enriched |
| ScheduleGrid.DisciplineDropped | src/components/schedule-grid/schedule-grid.component.ts:119-143 | On a cell the grid sees as occupied, no record is added or removed and ids stay. Otherwise exactly one record with the new id is appended after the old list |
| ScheduleGrid.ProfessorDropped | src/components/schedule-grid/schedule-grid.component.ts:145-166 | No record is added or removed and ids stay. Any record that changes now lists the dropped professor |
| ScheduleGrid.Evicted | src/components/schedule-grid/schedule-grid.component.ts:180-184 | The first step of a move removes one record when the grid sees the target as occupied, none otherwise. It adds nothing |
| ScheduleGrid.AllocationMoved | src/components/schedule-grid/schedule-grid.component.ts:168-202 | A move never grows the list. Every record afterwards is an old record, or carries the moved id and lies at the target |
| ScheduleGrid.Reconciled | src/components/schedule-grid/schedule-grid.component.ts:97-117 | A foreign tag changes nothing. Only a discipline drop can add a record, and at most one |
| ScheduleGrid.LookupShowsStoredState | src/components/schedule-grid/schedule-grid.component.ts:75-95 | A cell shows the state of the stored record; enrichment does not change it |
| ScheduleGrid.WithProfessor | src/components/schedule-grid/schedule-grid.component.ts:153-156 | The professor is present afterwards and nothing else is added. A present professor changes nothing, and no duplicate is introduced |
| ScheduleGrid.DeletedKeepsWellFormed | src/services/schedule.service.ts:134-138 | Deleting a record keeps the grid well formed |
| ScheduleGrid.EvictedFreesTarget | src/components/schedule-grid/schedule-grid.component.ts:180-184 | The first step of a move leaves the grid well formed with no record at the target. It removes only the target's record |
| ScheduleGrid.RekeyedKeepsWellFormed | src/components/schedule-grid/schedule-grid.component.ts:193-201 | Re-keying a record to a free cell keeps the grid well formed |
| ScheduleGrid.MoveKeepsWellFormed | src/components/schedule-grid/schedule-grid.component.ts:168-191 | Any move keeps the grid well formed, even with a stale payload, provided the payload lists no professor twice |
| ScheduleGrid.MovedRecordSurvivesEviction | src/components/schedule-grid/schedule-grid.component.ts:180-190 | A live moved record is still present after the target is evicted |
| ScheduleGrid.MoveEmptiesSource | src/components/schedule-grid/schedule-grid.component.ts:168-202 | After a move, no record is left at the source cell |
| ScheduleGrid.MoveDropsTarget | src/components/schedule-grid/schedule-grid.component.ts:180-184 | After a move, the id of the target's former record is gone |
| ScheduleGrid.MoveKeepsOthers | src/components/schedule-grid/schedule-grid.component.ts:168-202 | A move keeps every record other than the moved one and the target's |
| ScheduleGrid.MoveRelocates | src/components/schedule-grid/schedule-grid.component.ts:168-202 | After a move, exactly one record is at the target: the moved one, with the same id, disciplineId and professorIds. The source is empty, the target's former record is gone, other records stay, and the grid stays well formed |
| ScheduleGrid.DisciplineDropOnOccupiedCell | src/components/schedule-grid/schedule-grid.component.ts:122-131 | On an occupied cell, the same record gets the new disciplineId and keeps its professorIds. No other record changes |
| ScheduleGrid.DisciplineDropOnEmptyCell | src/components/schedule-grid/schedule-grid.component.ts:132-141 | On an empty cell, exactly one record is appended, with no professors. It is then the cell's only record, and the cell is DISCIPLINE_ONLY |
| ScheduleGrid.DisciplineDropKeepsWellFormed | src/components/schedule-grid/schedule-grid.component.ts:119-143 | A discipline drop keeps the grid well formed |
| ScheduleGrid.ProfessorDropWithoutDisciplineIsNoOp | src/components/schedule-grid/schedule-grid.component.ts:148-151 | A professor drop on a cell with no record, or whose record has an empty disciplineId, changes nothing |
| ScheduleGrid.MoveOntoOwnCellIsNoOp | src/components/schedule-grid/schedule-grid.component.ts:175-177 | Moving an allocation onto its own cell changes nothing |
| ScheduleGrid.ProfessorDropAdds | src/components/schedule-grid/schedule-grid.component.ts:153-165 | A professor drop adds the professor to that record only if absent. Nothing else changes |
| ScheduleGrid.ProfessorDropIdempotent | src/components/schedule-grid/schedule-grid.component.ts:153-165 | Dropping the same professor twice equals dropping it once |
| ScheduleGrid.ProfessorDropKeepsWellFormed | src/components/schedule-grid/schedule-grid.component.ts:145-166 | A professor drop keeps the grid well formed |
| ScheduleGrid.ReconciledKeepsWellFormed | src/components/schedule-grid/schedule-grid.component.ts:97-117 | Every reconciled drop keeps the grid well formed |
| ScheduleGrid.DropBeforeLoadIgnoresOccupant | src/components/schedule-grid/schedule-grid.component.ts:75-76 | Before the first load, a discipline drop on an occupied cell puts a second record there |
| ScheduleGrid.ProfessorNeverLandsOnEmptyCell | src/components/schedule-grid/schedule-grid.component.ts:145-151 | A professor over an empty cell is never forwarded, and the reconciler would ignore it anyway |
| ScheduleGrid.DropListId | src/components/schedule-grid/schedule-grid.component.ts:217 | The id is 10 characters longer than the slot id and the weekday text together |
| ScheduleGrid.DropListIdFormat | src/components/schedule-grid/schedule-grid.component.ts:217 | The id reads `timeSlot_`, the slot id, `_`, then the weekday id, or `undefined` for a slot without one |
| ScheduleGrid.DropListIdNamesTheCell | src/components/schedule-grid/schedule-grid.component.ts:217 | For slot ids without an underscore, two drop-list ids are equal exactly when slot id and weekday text are |
| ScheduleGrid.DropListIds | src/components/schedule-grid/schedule-grid.component.ts:213-230 | Lists the id of exactly the slots whose cached EMPTY-ness matches the list |
| ScheduleGrid.DropListsPartitionSlots | src/components/schedule-grid/schedule-grid.component.ts:213-230 | The discipline and professor lists together hold each slot's id exactly once |
| ScheduleGrid.ScheduleGridComponent.constructor | src/components/schedule-grid/schedule-grid.component.ts:48-52 | The grid works on the given store |
| ScheduleGrid.ScheduleGridComponent.GetAllocation | src/components/schedule-grid/schedule-grid.component.ts:75-95 | Returns nothing before the first load. A returned record lies at the requested cell, carries its resolved professors, and has the id of a published record |
| ScheduleGrid.ScheduleGridComponent.HandleDropRequest | src/components/schedule-grid/schedule-grid.component.ts:97-117 | Sends each tag to exactly one handler; the store's list becomes `Reconciled` of the old list |
| ScheduleGrid.ScheduleGridComponent.HandleDisciplineDrop | src/components/schedule-grid/schedule-grid.component.ts:119-143 | The store's list becomes `DisciplineDropped` of the old list |
| ScheduleGrid.ScheduleGridComponent.HandleProfessorDrop | src/components/schedule-grid/schedule-grid.component.ts:145-166 | The store's list becomes `ProfessorDropped` of the old list |
| ScheduleGrid.ScheduleGridComponent.HandleAllocationMove | src/components/schedule-grid/schedule-grid.component.ts:168-191 | Deletes the target's record, then re-keys the moved record. The store's list becomes `AllocationMoved` of the old list |
| ScheduleGrid.ScheduleGridComponent.MoveAllocation | src/components/schedule-grid/schedule-grid.component.ts:193-202 | Re-keys the record with the payload's id to the target, with the payload's discipline and professors |
| ScheduleGrid.ScheduleGridComponent.GetDisciplinesDropListIds | src/components/schedule-grid/schedule-grid.component.ts:213-221 | The ids of the EMPTY slots, in order; none before the first load |
| ScheduleGrid.ScheduleGridComponent.GetProfessorsDropListIds | src/components/schedule-grid/schedule-grid.component.ts:223-230 | The ids of the non-EMPTY slots, in order; none before the first load |
| ScheduleGrid.ScheduleGridComponent.CollectDropListIds | src/components/schedule-grid/schedule-grid.component.ts:216-218 | The loop collects exactly `DropListIds` of the published slots |
| ScheduleScenarios.DropWalkthrough | src/components/schedule-grid/schedule-grid.component.ts:119-202 | The walkthrough in four steps. (1) A discipline on an empty cell gives one DISCIPLINE_ONLY record. (2) A professor on it gives professorIds ["1"], DISCIPLINE_WITH_PROFESSORS. (3) A professor on an empty cell changes nothing. (4) The move leaves the source EMPTY and the record at the target |
| ScheduleScenarios.DropOnCell | src/components/time-slot/time-slot.component.ts:296-312 | A drop on a cell is forwarded exactly when the cell's gate allows it, and is then reconciled into the store |
| ScheduleScenarios.GridWalkthrough | src/components/schedule-grid/schedule-grid.component.ts:97-202 | The same walkthrough through cell, grid and store yields the same three lists |

## Left out

- Asynchrony. RxJS `of`/`delay`, subscriptions and subject broadcasting are left out. Each store call is an immediate transition, and the delete-then-move chain is two sequential steps. Overlapping in-flight calls and their races are not modelled.
- `Date.now().toString()` ids. The caller supplies the id as `freshId`. Lemmas about invariants require it to be unused, which the clock does not guarantee.
- The mock reference tables. The store takes its weekdays, time slots, disciplines and professors as constructor arguments.
- Angular plumbing: templates, styles, inputs and outputs, change detection, and `ngOnInit`/`ngOnDestroy`.
  - The grid reads the store's published data directly. The source keeps a copy received by subscription, which equals it once the subscription has run.
  - The cell reads the session's payload directly. The source keeps a mirror received by subscription.
- `handleAllocationChanged`, `getTimeSlotDropListIds` (a placeholder) and the `console.log` calls.
- The discipline and professor palette components and the bootstrap file.
- `ScheduleStore.ScheduleService.SetAdditionalProperties`: modelled on values. It returns the stamped data instead of writing `slotState` into the slot objects in place, so aliasing of the slot objects is not captured. Nothing in the core calls it.
- `ScheduleGrid.ScheduleGridComponent.HandleAllocationMove`: accepts the payload's `sourceSlotId` but does not use it, as the source does not.
- `ScheduleStore.ScheduleService.UpdateAllocation`: for an unknown id it returns no record. The source reads index -1 of the array, which yields `undefined`.
- Drops before the first load. The invariant lemmas cover the loaded grid only. Before the load the grid sees every cell as empty, so a discipline drop can put a second record in a cell (`DropBeforeLoadIgnoresOccupant`).
- A drop payload whose `data` does not match its tag is not modelled: each datatype variant carries data of its own kind.
