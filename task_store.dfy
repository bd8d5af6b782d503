/** The task store: an ordered list of task objects with id allocation on
    add and first-match lookup on update. The functions on `seq<TaskRecord>`
    specify the store's operations; the class `TaskManager` implements them
    over its mutable list and is proved against them. */
module TaskStore {
  import opened Wrappers
  import opened Tasks

  // ---------------------------------------------------------------------------
  // Specification on values
  // ---------------------------------------------------------------------------

  /** The ids of a list of tasks, in list order. */
  function IdsOf(rs: seq<TaskRecord>): seq<Int32>
  {
    seq(|rs|, k requires 0 <= k < |rs| => rs[k].id)
  }

  predicate DistinctIds(ids: seq<Int32>) {
    forall i, j :: 0 <= i < j < |ids| ==> ids[i] != ids[j]
  }

  /** `Max(t => t.Id)` over a non-empty list. */
  function MaxId(ids: seq<Int32>): (m: Int32)
    requires |ids| > 0
    ensures m in ids
    ensures forall k :: 0 <= k < |ids| ==> ids[k] <= m
  {
    if |ids| == 1 then ids[0]
    else
      var rest := MaxId(ids[1..]);
      if ids[0] < rest then rest else ids[0]
  }

  /** Adding one to `x` in unchecked 32-bit two's-complement arithmetic. */
  function WrappingIncrement(x: Int32): (r: Int32)
    ensures x < MaxInt32 ==> r == x + 1
    ensures x == MaxInt32 ==> r == MinInt32
  {
    (x + 1 - MinInt32) % 0x1_0000_0000 + MinInt32
  }

  /** The id `AddTask` computes as written: 1 for an empty list, otherwise the
      largest id plus one, with C#'s default unchecked overflow. */
  function NextIdAsWritten(ids: seq<Int32>): (r: Int32)
    ensures ids == [] ==> r == 1
    ensures ids != [] && MaxInt32 !in ids ==> r == MaxId(ids) + 1
    ensures ids != [] && MaxInt32 in ids ==> r == MinInt32
  {
    if ids == [] then 1 else WrappingIncrement(MaxId(ids))
  }

  /** With a task whose id is `int.MaxValue` in the list, two adds as written
      hand out the same id twice. */
  lemma AsWrittenRepeatsAnId()
    ensures var first := NextIdAsWritten([MaxInt32 as Int32]);
            var second := NextIdAsWritten([MaxInt32 as Int32, first]);
            first == second == MinInt32 && !DistinctIds([MaxInt32 as Int32, first, second])
  {
    var first := NextIdAsWritten([MaxInt32 as Int32]);
    assert [MaxInt32 as Int32][0] == MaxInt32;
    assert first == MinInt32;
    assert [MaxInt32 as Int32, first][0] == MaxInt32;
    var second := NextIdAsWritten([MaxInt32 as Int32, first]);
    assert second == MinInt32;
    var ids := [MaxInt32 as Int32, first, second];
    assert ids[1] == ids[2];
  }

  /** The id allocation the model uses: as written, except that the overflow
      at `int.MaxValue` allocates nothing instead of a wrapped id (the effect
      of checked arithmetic, whose exception escapes before the list is
      touched). Any id it returns is larger than every id present. */
  function NextId(ids: seq<Int32>): (r: Option<Int32>)
    ensures ids == [] ==> r == Some(1)
    ensures ids != [] ==> (r.None? <==> MaxInt32 in ids)
    ensures r.Some? ==> forall k :: 0 <= k < |ids| ==> ids[k] < r.value
    ensures r.Some? && ids != [] ==> r.value - 1 in ids
    ensures r.Some? ==> r.value !in ids
    ensures r.Some? ==> r.value == NextIdAsWritten(ids)
  {
    if ids == [] then Some(1)
    else
      var m := MaxId(ids);
      if m == MaxInt32 then None else Some(m + 1)
  }

  /** The arguments of one add: the description as passed and the status and
      timestamps the new task is constructed with. */
  datatype NewTask = NewTask(description: string, status: string, createdAt: string, updatedAt: string)

  /** The task list after one add. */
  function Added(rs: seq<TaskRecord>, t: NewTask): (r: seq<TaskRecord>)
    ensures NextId(IdsOf(rs)).None? ==> r == rs
    ensures NextId(IdsOf(rs)).Some? ==>
      && |r| == |rs| + 1 && r[..|rs|] == rs
      && r[|rs|] == TaskRecord(NextId(IdsOf(rs)).value, TrimQuotes(t.description),
                               t.status, t.createdAt, t.updatedAt)
  {
    match NextId(IdsOf(rs))
    case None => rs
    case Some(id) =>
      rs + [TaskRecord(id, TrimQuotes(t.description), t.status, t.createdAt, t.updatedAt)]
  }

  /** One add keeps the ids pairwise distinct. */
  lemma AddKeepsIdsDistinct(rs: seq<TaskRecord>, t: NewTask)
    requires DistinctIds(IdsOf(rs))
    ensures DistinctIds(IdsOf(Added(rs, t)))
  {
    var r := Added(rs, t);
    if |r| == |rs| + 1 {
      var ids, ids' := IdsOf(rs), IdsOf(r);
      forall i, j | 0 <= i < j < |ids'| ensures ids'[i] != ids'[j] {
        if j == |rs| {
          assert ids'[i] == ids[i];
        } else {
          assert ids'[i] == ids[i] && ids'[j] == ids[j];
        }
      }
    }
  }

  /** The list after a run of adds, first to last. */
  function AfterAdds(rs: seq<TaskRecord>, ts: seq<NewTask>): seq<TaskRecord>
    decreases |ts|
  {
    if ts == [] then rs else AfterAdds(Added(rs, ts[0]), ts[1..])
  }

  /** Any run of adds keeps distinct ids distinct. */
  lemma {:induction false} AddsKeepIdsDistinct(rs: seq<TaskRecord>, ts: seq<NewTask>)
    requires DistinctIds(IdsOf(rs))
    ensures DistinctIds(IdsOf(AfterAdds(rs, ts)))
    decreases |ts|
  {
    if ts != [] {
      AddKeepsIdsDistinct(rs, ts[0]);
      AddsKeepIdsDistinct(Added(rs, ts[0]), ts[1..]);
    }
  }

  /** A list numbered 1, 2, ..., n. */
  predicate NumberedFromOne(rs: seq<TaskRecord>) {
    forall k :: 0 <= k < |rs| ==> rs[k].id == k + 1
  }

  lemma NumberedMax(rs: seq<TaskRecord>)
    requires rs != [] && NumberedFromOne(rs)
    ensures MaxId(IdsOf(rs)) == |rs|
  {
    var ids := IdsOf(rs);
    var m := MaxId(ids);
    assert ids[|rs| - 1] == |rs|;
    var k :| 0 <= k < |ids| && ids[k] == m;
  }

  /** The tasks that adds with arguments `ts` create when the list already
      holds ids 1 to n. */
  function NumberedRecords(n: nat, ts: seq<NewTask>): seq<TaskRecord>
    requires n + |ts| <= MaxInt32
    decreases |ts|
  {
    if ts == [] then []
    else [TaskRecord(n + 1, TrimQuotes(ts[0].description), ts[0].status, ts[0].createdAt, ts[0].updatedAt)]
         + NumberedRecords(n + 1, ts[1..])
  }

  lemma {:induction false} NumberedRecordsAt(n: nat, ts: seq<NewTask>, k: nat)
    requires n + |ts| <= MaxInt32 && k < |ts|
    ensures |NumberedRecords(n, ts)| == |ts|
    ensures NumberedRecords(n, ts)[k]
            == TaskRecord(n + k + 1, TrimQuotes(ts[k].description), ts[k].status, ts[k].createdAt, ts[k].updatedAt)
    decreases |ts|
  {
    if k > 0 {
      NumberedRecordsAt(n + 1, ts[1..], k - 1);
      assert ts[1..][k - 1] == ts[k];
    } else if |ts| > 1 {
      NumberedRecordsAt(n + 1, ts[1..], 0);
    }
  }

  lemma NumberedAppend(rs: seq<TaskRecord>, first: TaskRecord)
    requires NumberedFromOne(rs) && first.id == |rs| + 1
    ensures NumberedFromOne(rs + [first])
  {
  }

  lemma AddContinuesNumbering(rs: seq<TaskRecord>, t: NewTask)
    requires NumberedFromOne(rs) && |rs| < MaxInt32
    ensures Added(rs, t) == rs + [TaskRecord(|rs| + 1, TrimQuotes(t.description), t.status, t.createdAt, t.updatedAt)]
  {
    if rs != [] { NumberedMax(rs); }
  }

  lemma ConcatAssoc(a: seq<TaskRecord>, b: seq<TaskRecord>, c: seq<TaskRecord>)
    ensures (a + b) + c == a + (b + c)
  {
  }

  /** Starting from a list numbered from one, a run of adds appends one task
      per add, each built from its arguments, continuing the numbering. */
  lemma {:induction false} AddsContinueNumbering(rs: seq<TaskRecord>, ts: seq<NewTask>)
    requires NumberedFromOne(rs) && |rs| + |ts| <= MaxInt32
    ensures AfterAdds(rs, ts) == rs + NumberedRecords(|rs|, ts)
    decreases |ts|
  {
    if ts == [] {
      assert NumberedRecords(|rs|, ts) == [];
    } else {
      var t := ts[0];
      var first := TaskRecord(|rs| + 1, TrimQuotes(t.description), t.status, t.createdAt, t.updatedAt);
      var rs' := rs + [first];
      var rest := NumberedRecords(|rs'|, ts[1..]);
      assert AfterAdds(rs, ts) == AfterAdds(rs', ts[1..]) by {
        AddContinuesNumbering(rs, t);
      }
      assert AfterAdds(rs', ts[1..]) == rs' + rest by {
        NumberedAppend(rs, first);
        AddsContinueNumbering(rs', ts[1..]);
      }
      ConcatAssoc(rs, [first], rest);
    }
  }

  /** From an empty store, the k-th add (counting from 0) creates task k + 1
      from its own arguments, so the ids are 1, 2, ... and pairwise distinct. */
  lemma AddsFromEmpty(ts: seq<NewTask>)
    requires |ts| <= MaxInt32
    ensures var r := AfterAdds([], ts);
            && |r| == |ts| && DistinctIds(IdsOf(r))
            && forall k :: 0 <= k < |ts| ==>
                 r[k] == TaskRecord(k + 1, TrimQuotes(ts[k].description), ts[k].status, ts[k].createdAt, ts[k].updatedAt)
  {
    AddsContinueNumbering([], ts);
    var r := AfterAdds([], ts);
    assert r == NumberedRecords(0, ts);
    if ts != [] {
      NumberedRecordsAt(0, ts, 0);
    }
    forall k | 0 <= k < |ts|
      ensures r[k] == TaskRecord(k + 1, TrimQuotes(ts[k].description), ts[k].status, ts[k].createdAt, ts[k].updatedAt)
    {
      NumberedRecordsAt(0, ts, k);
    }
  }

  /** `FirstOrDefault(t => t.Id == id)`, as the index of the first match. */
  function FindIndex(ids: seq<Int32>, id: Int32): (r: Option<nat>)
    ensures r.None? <==> id !in ids
    ensures r.Some? ==> r.value < |ids| && ids[r.value] == id
                        && forall j :: 0 <= j < r.value ==> ids[j] != id
  {
    if ids == [] then None
    else if ids[0] == id then Some(0)
    else match FindIndex(ids[1..], id)
      case None => None
      case Some(k) => Some(k + 1)
  }

  /** Position `k` holds the first task with this id. */
  predicate IsFirstWithId(rs: seq<TaskRecord>, k: nat, id: Int32) {
    k < |rs| && rs[k].id == id && forall j :: 0 <= j < k ==> rs[j].id != id
  }

  /** The list after `UpdateTask(id, d)`: only the description of the first
      task with that id changes, to the trimmed text; a missing id changes
      nothing. */
  function Updated(rs: seq<TaskRecord>, id: Int32, d: string): (r: seq<TaskRecord>)
    ensures |r| == |rs|
    ensures id !in IdsOf(rs) ==> r == rs
    ensures forall k :: 0 <= k < |rs| ==>
      && r[k].id == rs[k].id && r[k].status == rs[k].status
      && r[k].createdAt == rs[k].createdAt && r[k].updatedAt == rs[k].updatedAt
    ensures forall k :: 0 <= k < |rs| ==>
      r[k].description == if IsFirstWithId(rs, k, id) then TrimQuotes(d) else rs[k].description
  {
    assert forall j :: 0 <= j < |rs| ==> IdsOf(rs)[j] == rs[j].id;
    match FindIndex(IdsOf(rs), id)
    case None => rs
    case Some(k) => rs[k := rs[k].(description := TrimQuotes(d))]
  }

  /** Updating leaves the ids where they were. */
  lemma UpdateKeepsIds(rs: seq<TaskRecord>, id: Int32, d: string)
    ensures IdsOf(Updated(rs, id, d)) == IdsOf(rs)
  {
    var ids, ids' := IdsOf(rs), IdsOf(Updated(rs, id, d));
    assert forall k :: 0 <= k < |ids| ==> ids'[k] == ids[k];
  }

  /** Repeating the same update changes nothing more. */
  lemma UpdateIdempotent(rs: seq<TaskRecord>, id: Int32, d: string)
    ensures Updated(Updated(rs, id, d), id, d) == Updated(rs, id, d)
  {
    var once := Updated(rs, id, d);
    UpdateKeepsIds(rs, id, d);
    match FindIndex(IdsOf(rs), id)
    case None =>
    case Some(k) =>
      TrimQuotesIdempotent(d);
      assert once[k := once[k].(description := TrimQuotes(d))] == once;
  }

  // ---------------------------------------------------------------------------
  // The manager object
  // ---------------------------------------------------------------------------

  /** What the constructor finds on disk: no file, or a file whose contents
      the deserialiser turned into a list of tasks or into null. A list with
      null entries (a file such as `[null]`) is not representable: every
      entry here is a task object. */
  datatype StoredFile = Absent | Present(deserialized: Option<seq<Task>>)

  /** Distinct positions hold distinct objects, so rewriting one task object
      touches one list entry. */
  predicate Unaliased(ts: seq<Task>) {
    forall i, j :: 0 <= i < j < |ts| ==> ts[i] != ts[j]
  }

  class TaskManager {
    var tasks: seq<Task>
    /** Every collection `SaveTasks` has written, oldest first. */
    ghost var saves: seq<seq<TaskRecord>>

    predicate Valid()
      reads this`tasks
    {
      Unaliased(tasks)
    }

    /** The current value of every task, in list order. */
    function Records(): seq<TaskRecord>
      reads this`tasks, tasks
    {
      var ts := tasks;
      seq(|ts|, k requires 0 <= k < |ts| reads ts => ts[k].Snapshot())
    }

    /** A missing file and a null deserialisation both give an empty list. */
    constructor (file: StoredFile)
      requires file.Present? && file.deserialized.Some? ==> Unaliased(file.deserialized.value)
      ensures Valid() && saves == []
      ensures file.Absent? ==> tasks == []
      ensures file.Present? && file.deserialized.None? ==> tasks == []
      ensures file.Present? && file.deserialized.Some? ==> tasks == file.deserialized.value
    {
      saves := [];
      match file
      case Absent => tasks := [];
      case Present(parsed) =>
        tasks := match parsed case None => [] case Some(ts) => ts;
    }

    /** The largest id in the (non-empty) list, by one linear scan. */
    method MaxIdScan() returns (m: Int32)
      requires |tasks| > 0
      ensures m in IdsOf(Records())
      ensures forall k :: 0 <= k < |tasks| ==> tasks[k].id <= m
      ensures m == MaxId(IdsOf(Records()))
    {
      m := tasks[0].id;
      var w := 0;
      var i := 1;
      while i < |tasks|
        invariant 1 <= i <= |tasks|
        invariant 0 <= w < i && tasks[w].id == m
        invariant forall k :: 0 <= k < i ==> tasks[k].id <= m
      {
        if m < tasks[i].id {
          m, w := tasks[i].id, i;
        }
        i := i + 1;
      }
      assert IdsOf(Records())[w] == m;
    }

    /** The position of the first task with this id, by one linear scan. */
    method FindFirst(id: Int32) returns (r: Option<nat>)
      ensures r.None? ==> forall k :: 0 <= k < |tasks| ==> tasks[k].id != id
      ensures r.Some? ==> r.value < |tasks| && tasks[r.value].id == id
                          && forall j :: 0 <= j < r.value ==> tasks[j].id != id
      ensures r == FindIndex(IdsOf(Records()), id)
    {
      var i := 0;
      while i < |tasks|
        invariant 0 <= i <= |tasks|
        invariant forall j :: 0 <= j < i ==> tasks[j].id != id
      {
        if tasks[i].id == id {
          r := Some(i);
          ghost var f := FindIndex(IdsOf(Records()), id);
          assert IdsOf(Records())[i] == id;
          return;
        }
        i := i + 1;
      }
      r := None;
      assert id !in IdsOf(Records());
    }

    /** The id `AddTask` allocates: 1 for an empty list, otherwise the largest
        id plus one, refused at `int.MaxValue` (see NextId). */
    method AllocateId() returns (newId: Option<Int32>)
      ensures newId == NextId(IdsOf(Records()))
    {
      if |tasks| == 0 {
        newId := Some(1);
      } else {
        var m := MaxIdScan();
        newId := if m == MaxInt32 then None else Some(m + 1);
      }
    }

    /** Serialising the whole list to the file; only the fact that the
        current collection was written is kept. */
    method SaveTasks()
      modifies this`saves
      ensures saves == old(saves) + [Records()]
    {
      saves := saves + [Records()];
    }

    /** Allocates the next id, appends a task built from the arguments and
        saves. `status`, `createdAt` and `updatedAt` are what the new task is
        constructed with. When no id can be allocated nothing happens. */
    method AddTask(description: string, status: string, createdAt: string, updatedAt: string)
      returns (newId: Option<Int32>)
      requires Valid()
      modifies this
      ensures Valid()
      ensures newId == NextId(IdsOf(old(Records())))
      ensures Records() == Added(old(Records()), NewTask(description, status, createdAt, updatedAt))
      ensures newId.Some? ==> |tasks| == |old(tasks)| + 1 && tasks[..|old(tasks)|] == old(tasks)
                              && fresh(tasks[|old(tasks)|])
                              && saves == old(saves) + [Records()]
      ensures newId.None? ==> tasks == old(tasks) && saves == old(saves)
    {
      newId := AllocateId();
      if newId.None? {
        return;
      }
      ghost var before := Records();
      var t := new Task(newId.value, description, status, createdAt, updatedAt);
      tasks := tasks + [t];
      assert Records()[..|before|] == before;
      SaveTasks();
    }

    /** Rewrites the description of the first task with this id to the
        trimmed text, without touching its update time, and saves; reports
        whether such a task was found. A missing id changes nothing and
        saves nothing. */
    method UpdateTask(id: Int32, description: string) returns (found: bool)
      requires Valid()
      modifies this`saves, tasks
      ensures Valid()
      ensures found <==> id in IdsOf(old(Records()))
      ensures Records() == Updated(old(Records()), id, description)
      ensures saves == if found then old(saves) + [Records()] else old(saves)
    {
      var k := FindFirst(id);
      if k.None? {
        return false;
      }
      ghost var before := Records();
      var t := tasks[k.value];
      t.description := TrimQuotes(description);
      assert forall j :: 0 <= j < |tasks| && j != k.value ==> tasks[j] != t;
      assert Records() == before[k.value := before[k.value].(description := TrimQuotes(description))];
      SaveTasks();
      found := true;
    }
  }
}
