/**
 * The kanban board of a project page. It keeps its own copy of the project's tasks, shows
 * one column per status with the cards in ascending `order`, and, when a card is dropped,
 * renumbers the affected columns on the spot before asking the server to store the move.
 * A card is identified by its position in the board's task list (the board moves the
 * task objects themselves around, not copies).
 */
module Kanban {
  import opened Common
  import opened Domain
  import opened Sorting

  /** The fields of a task the board shows and rewrites. */
  datatype CardTask = CardTask(id: string, title: string, status: TaskStatus, priority: TaskPriority, order: int)

  /** A column and a position in it. */
  datatype DragLocation = DragLocation(droppableId: TaskStatus, index: nat)

  /** What the drag-and-drop library reports when a card is let go; no destination when dropped outside. */
  datatype DropResult = DropResult(draggableId: string, source: DragLocation, destination: Option<DragLocation>)

  /** The body of the PATCH sent to the reorder route. */
  datatype ReorderRequest = ReorderRequest(taskId: string, status: TaskStatus, order: nat)

  /** `(a, b) => a.order - b.order` as an ordering. */
  predicate ByOrder(a: CardTask, b: CardTask) {
    a.order <= b.order
  }

  /** The `order` of the card at position `i` (0 for a position outside the list). */
  function OrderAt(ts: seq<CardTask>, i: nat): int {
    if i < |ts| then ts[i].order else 0
  }

  /** Positions compared by the `order` of the cards they hold. */
  function ByOrderAt(ts: seq<CardTask>): (nat, nat) -> bool {
    (i: nat, j: nat) => OrderAt(ts, i) <= OrderAt(ts, j)
  }

  /** `getTasksByStatus`: the cards of one column, by ascending `order`, ties in list order. */
  function TasksByStatus(ts: seq<CardTask>, status: TaskStatus): seq<CardTask> {
    SortBy(Filter(ts, (t: CardTask) => t.status == status), ByOrder)
  }

  /** A column holds exactly the cards of its status, in ascending order. */
  lemma TasksByStatusSpec(ts: seq<CardTask>, status: TaskStatus)
    ensures var col := TasksByStatus(ts, status);
      && multiset(col) == multiset(Filter(ts, (t: CardTask) => t.status == status))
      && SortedBy(col, ByOrder)
      && (forall j :: 0 <= j < |col| ==> col[j].status == status)
      && (forall i :: 0 <= i < |ts| && ts[i].status == status ==> ts[i] in col)
  {
    var picked := Filter(ts, (t: CardTask) => t.status == status);
    var col := SortBy(picked, ByOrder);
    SortBySorted(picked, ByOrder);
    forall j | 0 <= j < |col| ensures col[j].status == status {
      assert col[j] in multiset(picked);
    }
    forall i | 0 <= i < |ts| && ts[i].status == status ensures ts[i] in col {
      assert ts[i] in multiset(picked);
    }
  }

  /** `tasksCopy.find((t) => t.id === id)`: the first position holding a card with that id. */
  function FindTask(ts: seq<CardTask>, id: string): Option<nat> {
    IndexWhere(ts, (t: CardTask) => t.id == id)
  }

  /**
   * The positions of the cards of column `status` other than the dragged card `id`, by
   * ascending `order`: the `sourceTasks`/`destTasks` lists before the splice.
   */
  function ColumnOthers(ts: seq<CardTask>, status: TaskStatus, id: string): (r: seq<nat>)
    ensures Distinct(r)
    ensures forall j :: 0 <= j < |r| ==> r[j] < |ts| && ts[r[j]].status == status && ts[r[j]].id != id
    ensures forall i :: 0 <= i < |ts| && ts[i].status == status && ts[i].id != id ==> i in r
    ensures SortedBy(r, ByOrderAt(ts))
  {
    var p := (i: nat) => i < |ts| && ts[i].status == status && ts[i].id != id;
    var picked := Filter(Indices(|ts|), p);
    PickedColumn(ts, status, id, p, picked, SortBy(picked, ByOrderAt(ts)));
    SortBy(picked, ByOrderAt(ts))
  }

  lemma PickedColumn(ts: seq<CardTask>, status: TaskStatus, id: string, p: nat -> bool, picked: seq<nat>, r: seq<nat>)
    requires forall i: nat :: p(i) == (i < |ts| && ts[i].status == status && ts[i].id != id)
    requires picked == Filter(Indices(|ts|), p) && r == SortBy(picked, ByOrderAt(ts))
    ensures Distinct(r)
    ensures forall j :: 0 <= j < |r| ==> r[j] < |ts| && ts[r[j]].status == status && ts[r[j]].id != id
    ensures forall i :: 0 <= i < |ts| && ts[i].status == status && ts[i].id != id ==> i in r
    ensures SortedBy(r, ByOrderAt(ts))
  {
    FilterDistinct(Indices(|ts|), p);
    PermutationDistinct(picked, r);
    SortBySorted(picked, ByOrderAt(ts));
    forall j | 0 <= j < |r| ensures r[j] < |ts| && ts[r[j]].status == status && ts[r[j]].id != id {
      assert r[j] in multiset(picked);
    }
    forall i | 0 <= i < |ts| && ts[i].status == status && ts[i].id != id ensures i in r {
      assert Indices(|ts|)[i] == i;
      assert i in multiset(picked);
    }
  }

  /** `list.splice(index, 0, k)`: an index past the end appends. */
  function Splice(list: seq<nat>, index: nat, k: nat): (r: seq<nat>)
    ensures |r| == |list| + 1
    ensures var p := if index <= |list| then index else |list|;
      forall j :: 0 <= j < |r| ==> r[j] == if j < p then list[j] else if j == p then k else list[j - 1]
  {
    var p := if index <= |list| then index else |list|;
    list[..p] + [k] + list[p..]
  }

  /** Every element of `list` is a position of `ts`. */
  predicate PositionsOf(ts: seq<CardTask>, list: seq<nat>) {
    forall j :: 0 <= j < |list| ==> list[j] < |ts|
  }

  /** The first `n` steps of `list.forEach((task, index) => { task.order = index })`. */
  function Renumber(ts: seq<CardTask>, list: seq<nat>, n: nat): (r: seq<CardTask>)
    requires n <= |list| && PositionsOf(ts, list)
    ensures |r| == |ts|
    ensures forall i :: 0 <= i < |ts| ==> r[i] == ts[i].(order := r[i].order)
  {
    if n == 0 then ts
    else
      var prev := Renumber(ts, list, n - 1);
      prev[list[n - 1] := prev[list[n - 1]].(order := n - 1)]
  }

  /**
   * Renumbering a list without repeats gives its `j`-th card order `j`, and leaves every
   * other card as it was.
   */
  lemma {:induction false} RenumberSpec(ts: seq<CardTask>, list: seq<nat>, n: nat)
    requires n <= |list| && PositionsOf(ts, list) && Distinct(list)
    ensures forall j :: 0 <= j < n ==> Renumber(ts, list, n)[list[j]] == ts[list[j]].(order := j)
    ensures forall i :: 0 <= i < |ts| && i !in list[..n] ==> Renumber(ts, list, n)[i] == ts[i]
  {
    if n > 0 {
      RenumberSpec(ts, list, n - 1);
      forall i | 0 <= i < |ts| && i !in list[..n] ensures Renumber(ts, list, n)[i] == ts[i] {
        assert list[..n] == list[..n - 1] + [list[n - 1]];
      }
      forall j | 0 <= j < n ensures Renumber(ts, list, n)[list[j]] == ts[list[j]].(order := j) {
        if j < n - 1 {
          assert list[j] != list[n - 1];
        } else {
          assert list[n - 1] !in list[..n - 1];
        }
      }
    }
  }

  /** `RenumberSpec` for the whole list. */
  lemma RenumberWhole(ts: seq<CardTask>, list: seq<nat>)
    requires PositionsOf(ts, list) && Distinct(list)
    ensures forall j :: 0 <= j < |list| ==> Renumber(ts, list, |list|)[list[j]] == ts[list[j]].(order := j)
    ensures forall i :: 0 <= i < |ts| && i !in list ==> Renumber(ts, list, |list|)[i] == ts[i]
  {
    RenumberSpec(ts, list, |list|);
    assert list[..|list|] == list;
  }

  /** The destination column after the splice: the other cards with the dragged card inserted. */
  function DestList(ts: seq<CardTask>, k: nat, dst: TaskStatus, index: nat): (r: seq<nat>)
    requires k < |ts|
    ensures PositionsOf(ts, r) && Distinct(r)
    ensures forall j :: 0 <= j < |r| && r[j] != k ==> ts[r[j]].status == dst
    ensures forall i :: 0 <= i < |ts| && i != k && ts[i].status == dst && ts[i].id != ts[k].id ==> i in r
    ensures |r| >= 1 && var p := if index < |r| then index else |r| - 1; r[p] == k
  {
    var others := ColumnOthers(ts, dst, ts[k].id);
    SplicedColumn(ts, k, others, index);
    Splice(others, index, k)
  }

  lemma SplicedColumn(ts: seq<CardTask>, k: nat, others: seq<nat>, index: nat)
    requires k < |ts| && Distinct(others)
    requires forall j :: 0 <= j < |others| ==> others[j] < |ts| && ts[others[j]].id != ts[k].id
    ensures var r := Splice(others, index, k);
      && PositionsOf(ts, r) && Distinct(r) && (forall j :: 0 <= j < |r| && r[j] != k ==> r[j] in others) && k in r
      && (forall m :: 0 <= m < |others| ==> others[m] in r)
  {
    var r := Splice(others, index, k);
    var p := if index <= |others| then index else |others|;
    assert r[p] == k;
    assert forall m :: 0 <= m < |others| ==> others[m] != k;
    forall j | 0 <= j < |r| && r[j] != k ensures r[j] in others {
    }
    forall m | 0 <= m < |others| ensures others[m] in r {
      if m < p {
        assert r[m] == others[m];
      } else {
        assert r[m + 1] == others[m];
      }
    }
  }

  /** The card at `k` takes the destination status and the drop index as its order. */
  function MoveCard(ts: seq<CardTask>, k: nat, dst: TaskStatus, index: nat): (r: seq<CardTask>)
    requires k < |ts|
    ensures |r| == |ts| && r[k].status == dst
  {
    ts[k := ts[k].(status := dst, order := index)]
  }

  /**
   * The board after a move of the card at position `k` from column `src` to position
   * `index` of column `dst`: the card takes the destination status, the destination column
   * (with the card spliced in) is renumbered 0..n-1, and when the columns differ so is the
   * rest of the source column.
   */
  function DragResult(ts: seq<CardTask>, k: nat, src: TaskStatus, dst: TaskStatus, index: nat): (r: seq<CardTask>)
    requires k < |ts|
    ensures |r| == |ts|
    ensures forall i :: 0 <= i < |ts| ==> r[i].id == ts[i].id && r[i].title == ts[i].title && r[i].priority == ts[i].priority
  {
    var destList := DestList(ts, k, dst, index);
    var srcList := ColumnOthers(ts, src, ts[k].id);
    var placed := Renumber(MoveCard(ts, k, dst, index), destList, |destList|);
    if src != dst then Renumber(placed, srcList, |srcList|) else placed
  }

  /**
   * After the splice and the first renumbering, the destination column's `j`-th card has the
   * destination status and order `j`; every card outside it is as it was.
   */
  lemma {:induction false} PlacedSpec(ts: seq<CardTask>, k: nat, dst: TaskStatus, index: nat)
    requires k < |ts|
    ensures var destList := DestList(ts, k, dst, index);
      var placed := Renumber(MoveCard(ts, k, dst, index), destList, |destList|);
      && (forall j :: 0 <= j < |destList| ==> placed[destList[j]] == ts[destList[j]].(status := dst, order := j))
      && (forall i :: 0 <= i < |ts| && i !in destList ==> placed[i] == ts[i])
  {
    var destList := DestList(ts, k, dst, index);
    var moved := MoveCard(ts, k, dst, index);
    RenumberWhole(moved, destList);
  }

  /** When the columns differ, the remaining source cards and the destination column are disjoint. */
  lemma DragSourceDisjoint(ts: seq<CardTask>, k: nat, src: TaskStatus, dst: TaskStatus, index: nat)
    requires k < |ts| && src != dst
    ensures forall i :: i in ColumnOthers(ts, src, ts[k].id) ==> i !in DestList(ts, k, dst, index)
  {
    var destList := DestList(ts, k, dst, index);
    var srcList := ColumnOthers(ts, src, ts[k].id);
    forall i | i in srcList ensures i !in destList {
      var m :| 0 <= m < |srcList| && srcList[m] == i;
      assert forall n :: 0 <= n < |destList| ==> destList[n] != i;
    }
  }

  /**
   * The destination column, in its new sequence, has the destination status and orders
   * 0..n-1; the moved card sits at the drop index, or last when the index is past the end.
   */
  lemma {:induction false} DragRenumbersDestination(ts: seq<CardTask>, k: nat, src: TaskStatus, dst: TaskStatus, index: nat)
    requires k < |ts|
    ensures var r := DragResult(ts, k, src, dst, index);
      var destList := DestList(ts, k, dst, index);
      forall j :: 0 <= j < |destList| ==> r[destList[j]] == ts[destList[j]].(status := dst, order := j)
  {
    var destList := DestList(ts, k, dst, index);
    var srcList := ColumnOthers(ts, src, ts[k].id);
    var placed := Renumber(MoveCard(ts, k, dst, index), destList, |destList|);
    PlacedSpec(ts, k, dst, index);
    if src != dst {
      DragSourceDisjoint(ts, k, src, dst, index);
      RenumberWhole(placed, srcList);
    }
  }

  /** No two cards share an id (the board's cards come from distinct database rows). */
  predicate UniqueIds(ts: seq<CardTask>) {
    forall i, j :: 0 <= i < j < |ts| ==> ts[i].id != ts[j].id
  }

  /**
   * With distinct ids, the destination column after a move holds exactly the spliced list:
   * a card has the destination status afterwards if and only if it is in that list.
   */
  lemma DragDestinationMembers(ts: seq<CardTask>, k: nat, src: TaskStatus, dst: TaskStatus, index: nat)
    requires k < |ts| && UniqueIds(ts)
    ensures var r := DragResult(ts, k, src, dst, index);
      var destList := DestList(ts, k, dst, index);
      forall i :: 0 <= i < |ts| ==> (r[i].status == dst <==> i in destList)
  {
    forall i | 0 <= i < |ts|
      ensures DragResult(ts, k, src, dst, index)[i].status == dst <==> i in DestList(ts, k, dst, index)
    {
      DestinationMemberAt(ts, k, src, dst, index, i);
    }
  }

  lemma DestinationMemberAt(ts: seq<CardTask>, k: nat, src: TaskStatus, dst: TaskStatus, index: nat, i: nat)
    requires k < |ts| && UniqueIds(ts) && i < |ts|
    ensures DragResult(ts, k, src, dst, index)[i].status == dst <==> i in DestList(ts, k, dst, index)
  {
    if i in DestList(ts, k, dst, index) {
      DestinationCardMoved(ts, k, src, dst, index, i);
    } else if src != dst && i in ColumnOthers(ts, src, ts[k].id) {
      SourceCardStays(ts, k, src, dst, index, i);
    } else {
      OtherCardStays(ts, k, src, dst, index, i);
    }
  }

  /** A card of the destination list ends with the destination status. */
  lemma DestinationCardMoved(ts: seq<CardTask>, k: nat, src: TaskStatus, dst: TaskStatus, index: nat, i: nat)
    requires k < |ts| && i in DestList(ts, k, dst, index)
    ensures DragResult(ts, k, src, dst, index)[i].status == dst
  {
    var destList := DestList(ts, k, dst, index);
    DragRenumbersDestination(ts, k, src, dst, index);
    var j :| 0 <= j < |destList| && destList[j] == i;
    assert DragResult(ts, k, src, dst, index)[destList[j]] == ts[destList[j]].(status := dst, order := j);
  }

  /** When the columns differ, a remaining card of the source column keeps the source status. */
  lemma SourceCardStays(ts: seq<CardTask>, k: nat, src: TaskStatus, dst: TaskStatus, index: nat, i: nat)
    requires k < |ts| && src != dst && i in ColumnOthers(ts, src, ts[k].id)
    ensures DragResult(ts, k, src, dst, index)[i].status != dst
  {
    var srcList := ColumnOthers(ts, src, ts[k].id);
    DragRenumbersSource(ts, k, src, dst, index);
    var j :| 0 <= j < |srcList| && srcList[j] == i;
    assert DragResult(ts, k, src, dst, index)[srcList[j]] == ts[srcList[j]].(order := j);
  }

  /** A card in neither list keeps its status, which is not the destination's. */
  lemma OtherCardStays(ts: seq<CardTask>, k: nat, src: TaskStatus, dst: TaskStatus, index: nat, i: nat)
    requires k < |ts| && UniqueIds(ts) && i < |ts|
    requires i !in DestList(ts, k, dst, index) && (src == dst || i !in ColumnOthers(ts, src, ts[k].id))
    ensures DragResult(ts, k, src, dst, index)[i].status != dst
  {
    DragLeavesOthers(ts, k, src, dst, index);
    assert i != k;
    assert DragResult(ts, k, src, dst, index)[i] == ts[i];
  }

  /**
   * When the columns differ, the rest of the source column keeps its sequence and is
   * renumbered 0..m-1.
   */
  lemma {:induction false} DragRenumbersSource(ts: seq<CardTask>, k: nat, src: TaskStatus, dst: TaskStatus, index: nat)
    requires k < |ts| && src != dst
    ensures var r := DragResult(ts, k, src, dst, index);
      var srcList := ColumnOthers(ts, src, ts[k].id);
      forall j :: 0 <= j < |srcList| ==> r[srcList[j]] == ts[srcList[j]].(order := j)
  {
    var destList := DestList(ts, k, dst, index);
    var srcList := ColumnOthers(ts, src, ts[k].id);
    var placed := Renumber(MoveCard(ts, k, dst, index), destList, |destList|);
    PlacedSpec(ts, k, dst, index);
    DragSourceDisjoint(ts, k, src, dst, index);
    RenumberWhole(placed, srcList);
  }

  /** Every card outside the destination column and (when it differs) the source column is untouched. */
  lemma {:induction false} DragLeavesOthers(ts: seq<CardTask>, k: nat, src: TaskStatus, dst: TaskStatus, index: nat)
    requires k < |ts|
    ensures var r := DragResult(ts, k, src, dst, index);
      var destList := DestList(ts, k, dst, index);
      var srcList := ColumnOthers(ts, src, ts[k].id);
      forall i :: 0 <= i < |ts| && i !in destList && (src == dst || i !in srcList) ==> r[i] == ts[i]
  {
    var destList := DestList(ts, k, dst, index);
    var srcList := ColumnOthers(ts, src, ts[k].id);
    var placed := Renumber(MoveCard(ts, k, dst, index), destList, |destList|);
    PlacedSpec(ts, k, dst, index);
    if src != dst {
      RenumberWhole(placed, srcList);
    }
  }

  /** `list.forEach((task, index) => { task.order = index })` over the cards at the positions in `list`. */
  method RenumberColumn(ts: seq<CardTask>, list: seq<nat>) returns (r: seq<CardTask>)
    requires PositionsOf(ts, list)
    ensures r == Renumber(ts, list, |list|)
  {
    r := ts;
    var i := 0;
    while i < |list|
      invariant 0 <= i <= |list|
      invariant r == Renumber(ts, list, i)
    {
      r := r[list[i] := r[list[i]].(order := i)];
      i := i + 1;
    }
  }

  /**
   * The optimistic update of `handleDragEnd`, made on the board's cards: nothing when the
   * card is dropped outside any column, dropped back where it came from, or not on the
   * board; otherwise the cards after the move, as `DragResult` describes them.
   */
  method MoveCards(ts: seq<CardTask>, result: DropResult) returns (moved: Option<seq<CardTask>>)
    ensures var k := FindTask(ts, result.draggableId);
      if result.destination.None? || result.source == result.destination.value || k.None? then moved.None?
      else moved == Some(DragResult(ts, k.value, result.source.droppableId, result.destination.value.droppableId,
                                    result.destination.value.index))
  {
    if result.destination.None? {
      return None;
    }
    var destination := result.destination.value;
    if result.source.droppableId == destination.droppableId && result.source.index == destination.index {
      return None;
    }
    var sourceStatus, destStatus := result.source.droppableId, destination.droppableId;
    var found := FindTask(ts, result.draggableId);
    if found.None? {
      return None;
    }
    var k := found.value;
    var sourceTasks := ColumnOthers(ts, sourceStatus, result.draggableId);
    var destTasks := ColumnOthers(ts, destStatus, result.draggableId);
    destTasks := Splice(destTasks, destination.index, k);
    assert destTasks == DestList(ts, k, destStatus, destination.index);

    var tasksCopy := ts[k := ts[k].(status := destStatus, order := destination.index)];
    tasksCopy := RenumberColumn(tasksCopy, destTasks);
    if sourceStatus != destStatus {
      tasksCopy := RenumberColumn(tasksCopy, sourceTasks);
    }
    return Some(tasksCopy);
  }

  /**
   * The board as written. `tasks` is the state it renders; `initialTasks` is the list the
   * page passed in, which it falls back to when the server rejects a move.
   * `useState(initialTasks)` keeps the very list it is given, and
   * `[...tasks]` copies the array but not the card objects in it, so `tasks` and
   * `initialTasks` always list the same card objects in the same positions: a card changed
   * through one list is changed in the other. The model holds the cards' values, so the two
   * lists are equal in every state (`SharesCards`).
   */
  class KanbanBoard {
    var tasks: seq<CardTask>
    var initialTasks: seq<CardTask>

    /** Both lists hold the same card objects, position by position. */
    predicate SharesCards()
      reads this
    {
      tasks == initialTasks
    }

    constructor(initial: seq<CardTask>)
      ensures tasks == initial && initialTasks == initial && SharesCards()
    {
      tasks := initial;
      initialTasks := initial;
    }

    /** The page passes a new task list: the board adopts it (the `useEffect` on `initialTasks`). */
    method ReceiveInitialTasks(initial: seq<CardTask>)
      modifies this
      ensures tasks == initial && initialTasks == initial && SharesCards()
    {
      initialTasks := initial;
      tasks := initial;
    }

    /** The cards the board shows in one column. */
    function GetTasksByStatus(status: TaskStatus): (r: seq<CardTask>)
      reads this
      ensures multiset(r) == multiset(Filter(tasks, (t: CardTask) => t.status == status))
      ensures SortedBy(r, ByOrder)
    {
      TasksByStatusSpec(tasks, status);
      TasksByStatus(tasks, status)
    }

    /**
     * `handleDragEnd` as written. A drop that moves nothing changes nothing and sends
     * nothing. Otherwise the card objects themselves are moved and renumbered, which changes
     * them as `initialTasks` lists them too, and the move is sent to the reorder route. When
     * `patchOk` says the server refused, `setTasks(initialTasks)` shows those same moved
     * cards: the board keeps the move either way.
     */
    method HandleDragEnd(result: DropResult, patchOk: bool) returns (request: Option<ReorderRequest>)
      requires SharesCards()
      modifies this
      ensures SharesCards()
      ensures var k := FindTask(old(tasks), result.draggableId);
        if result.destination.None? || result.source == result.destination.value || k.None? then
          request.None? && tasks == old(tasks)
        else
          var dest := result.destination.value;
          && request == Some(ReorderRequest(result.draggableId, dest.droppableId, dest.index))
          && tasks == DragResult(old(tasks), k.value, result.source.droppableId, dest.droppableId, dest.index)
    {
      var moved := MoveCards(tasks, result);
      if moved.None? {
        return None;
      }
      // The cards were changed in place, so the change shows through both lists.
      tasks, initialTasks := moved.value, moved.value;
      var destination := result.destination.value;
      request := Some(ReorderRequest(result.draggableId, destination.droppableId, destination.index));
      if !patchOk {
        tasks := initialTasks;
      }
    }
  }

  /**
   * A one-card board whose card is dropped from TODO into DONE. When the server refuses the
   * move, `KanbanBoard.HandleDragEnd` leaves the board at this `DragResult`: the card stays
   * in DONE instead of going back to TODO.
   */
  lemma RefusedMoveStaysMoved()
    ensures var card := CardTask("a", "A", TODO, MEDIUM, 0);
      var r := DragResult([card], 0, TODO, DONE, 0);
      r[0].status == DONE && r != [card]
  {
    var card := CardTask("a", "A", TODO, MEDIUM, 0);
    PlacedSpec([card], 0, DONE, 0);
    assert DestList([card], 0, DONE, 0) == [0];
  }

  /**
   * The board with the rollback the source means to have: the drag works on copies of the
   * cards (`tasks.map((t) => ({ ...t }))`), so `initialTasks` keeps the cards as they were
   * given and a refused move shows them again.
   */
  class CopyingKanbanBoard {
    var tasks: seq<CardTask>
    var initialTasks: seq<CardTask>

    constructor(initial: seq<CardTask>)
      ensures tasks == initial && initialTasks == initial
    {
      tasks := initial;
      initialTasks := initial;
    }

    /** The page passes a new task list: the board adopts it. */
    method ReceiveInitialTasks(initial: seq<CardTask>)
      modifies this
      ensures tasks == initial && initialTasks == initial
    {
      initialTasks := initial;
      tasks := initial;
    }

    /**
     * `handleDragEnd` on copied cards. A drop that moves nothing changes nothing and sends
     * nothing. Otherwise the board shows the move and sends it; when `patchOk` says the
     * server refused, it shows `initialTasks` again, which the move did not touch.
     */
    method HandleDragEnd(result: DropResult, patchOk: bool) returns (request: Option<ReorderRequest>)
      modifies this`tasks
      ensures var k := FindTask(old(tasks), result.draggableId);
        if result.destination.None? || result.source == result.destination.value || k.None? then
          request.None? && tasks == old(tasks)
        else
          var dest := result.destination.value;
          && request == Some(ReorderRequest(result.draggableId, dest.droppableId, dest.index))
          && tasks == if patchOk then DragResult(old(tasks), k.value, result.source.droppableId, dest.droppableId, dest.index)
                      else initialTasks
    {
      var moved := MoveCards(tasks, result);
      if moved.None? {
        return None;
      }
      tasks := moved.value;
      var destination := result.destination.value;
      request := Some(ReorderRequest(result.draggableId, destination.droppableId, destination.index));
      if !patchOk {
        tasks := initialTasks;
      }
    }
  }
}
