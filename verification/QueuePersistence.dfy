/** The persisted deployment list: its memory image and the file it is saved to. */
module QueuePersistences {
  import opened Common
  import opened TaskStores

  datatype Request = Request(deployLogId: Option<string>, commitHash: Option<string>, branch: Option<string>)

  datatype PersistedTask = PersistedTask(id: TaskId, project: Project, request: Request, running: bool,
                                         queuedAt: Time, startedAt: Option<Time>)

  predicate HasId(q: seq<PersistedTask>, id: TaskId) {
    exists i :: 0 <= i < |q| && q[i].id == id
  }

  /** Duplicates are ignored. */
  function AddTo(q: seq<PersistedTask>, t: PersistedTask): seq<PersistedTask> {
    if HasId(q, t.id) then q else q + [t]
  }

  function RemoveFrom(q: seq<PersistedTask>, id: TaskId): seq<PersistedTask> {
    if q == [] then []
    else RemoveFrom(q[..|q| - 1], id) + (if q[|q| - 1].id == id then [] else [q[|q| - 1]])
  }

  /** The first record with the id, if any, becomes running. */
  function MarkIn(q: seq<PersistedTask>, id: TaskId, at: Time): seq<PersistedTask> {
    if q == [] then []
    else if q[0].id == id then [q[0].(running := true, startedAt := Some(at))] + q[1..]
    else [q[0]] + MarkIn(q[1..], id, at)
  }

  /** Position `i` holds the first record with the id. */
  predicate FirstWith(q: seq<PersistedTask>, id: TaskId, i: int) {
    0 <= i < |q| && q[i].id == id && forall j :: 0 <= j < i ==> q[j].id != id
  }

  /** The record is running since then, and is otherwise the same. */
  predicate StartedAs(t: PersistedTask, t': PersistedTask, at: Time) {
    && t'.id == t.id && t'.project == t.project && t'.request == t.request && t'.queuedAt == t.queuedAt
    && t'.running && t'.startedAt == Some(at)
  }

  lemma {:induction false} RemoveFromAre(q: seq<PersistedTask>, id: TaskId)
    ensures forall t :: t in RemoveFrom(q, id) <==> t in q && t.id != id
  {
    if q != [] {
      RemoveFromAre(q[..|q| - 1], id);
      assert q == q[..|q| - 1] + [q[|q| - 1]];
    }
  }

  /** Each record is judged by itself, and the order stays. */
  lemma {:induction false} RemoveFromSum(a: seq<PersistedTask>, b: seq<PersistedTask>, id: TaskId)
    ensures RemoveFrom(a + b, id) == RemoveFrom(a, id) + RemoveFrom(b, id)
  {
    if b == [] {
      assert a + b == a;
    } else {
      var n := |b| - 1;
      assert (a + b)[..|a + b| - 1] == a + b[..n] && (a + b)[|a + b| - 1] == b[n];
      RemoveFromSum(a, b[..n], id);
    }
  }

  lemma {:induction false} RemoveFromIds(q: seq<PersistedTask>, id: TaskId, other: TaskId)
    ensures HasId(RemoveFrom(q, id), other) <==> other != id && HasId(q, other)
  {
    if q != [] {
      var front, last := q[..|q| - 1], q[|q| - 1];
      RemoveFromIds(front, id, other);
      HasIdPush(front, last, other);
      assert front + [last] == q;
      HasIdPush(RemoveFrom(front, id), last, other);
      assert RemoveFrom(front, id) + [] == RemoveFrom(front, id);
    }
  }

  lemma HasIdPush(q: seq<PersistedTask>, t: PersistedTask, id: TaskId)
    ensures HasId(q + [t], id) <==> HasId(q, id) || t.id == id
  {
    if HasId(q, id) {
      var i :| 0 <= i < |q| && q[i].id == id;
      assert (q + [t])[i].id == id;
    }
    assert (q + [t])[|q|] == t;
  }

  lemma {:induction false} MarkInIds(q: seq<PersistedTask>, id: TaskId, at: Time)
    ensures |MarkIn(q, id, at)| == |q|
    ensures forall i :: 0 <= i < |q| ==> MarkIn(q, id, at)[i].id == q[i].id && MarkIn(q, id, at)[i].project == q[i].project
  {
    if q != [] && q[0].id != id { MarkInIds(q[1..], id, at); }
  }

  lemma MarkInHas(q: seq<PersistedTask>, id: TaskId, at: Time, other: TaskId)
    ensures HasId(MarkIn(q, id, at), other) <==> HasId(q, other)
  {
    MarkInIds(q, id, at);
  }

  lemma AddToIds(q: seq<PersistedTask>, t: PersistedTask, other: TaskId)
    ensures HasId(AddTo(q, t), other) <==> HasId(q, other) || other == t.id
  {
    HasIdPush(q, t, other);
  }

  /** What a save does before it stops: nothing, the temporary file, or everything. */
  datatype SaveResult = NotWritten | NotRenamed | Saved

  /** The queue file and the temporary file next to it. */
  class QueueFile {
    var content: Option<seq<PersistedTask>>
    var temp: Option<seq<PersistedTask>>

    constructor ()
      ensures content == None && temp == None
    {
      content, temp := None, None;
    }

    method Save(q: seq<PersistedTask>, result: SaveResult)
      modifies this
      ensures content == if result.Saved? then Some(q) else old(content)
      ensures temp == match result case NotWritten => old(temp) case NotRenamed => Some(q) case Saved => None
    {
      if result.NotWritten? { return; }
      temp := Some(q);
      if result.NotRenamed? { return; }
      content, temp := temp, None;
    }
  }

  class QueuePersistence {
    var tasks: seq<PersistedTask>
    const file: QueueFile

    constructor (file: QueueFile)
      ensures this.file == file && tasks == []
    {
      this.file := file;
      tasks := [];
    }

    /** The memory image is what the file holds. */
    ghost predicate Synced()
      reads this, file
    {
      file.content == Some(tasks)
    }

    method Load() returns (loaded: Option<seq<PersistedTask>>)
      modifies this
      ensures loaded == file.content
      ensures tasks == if loaded.Some? then loaded.value else old(tasks)
    {
      loaded := file.content;
      if loaded.Some? { tasks := loaded.value; }
    }

    method AddTask(t: PersistedTask, result: SaveResult) returns (ok: bool)
      modifies this, file
      ensures tasks == AddTo(old(tasks), t)
      ensures tasks == if exists i :: 0 <= i < |old(tasks)| && old(tasks)[i].id == t.id then old(tasks) else old(tasks) + [t]
      ensures ok <==> result.Saved?
      ensures ok ==> Synced()
      ensures !ok ==> file.content == old(file.content)
    {
      if !HasId(tasks, t.id) { tasks := tasks + [t]; }
      file.Save(tasks, result);
      ok := result.Saved?;
    }

    /** Nothing is written when there is nothing to remove. */
    method RemoveTask(id: TaskId, result: SaveResult) returns (ok: bool, removed: bool)
      modifies this, file
      ensures tasks == RemoveFrom(old(tasks), id)
      ensures forall t :: t in tasks <==> t in old(tasks) && t.id != id
      ensures removed <==> HasId(old(tasks), id)
      ensures ok <==> result.Saved? || !removed
      ensures removed && ok ==> Synced()
      ensures !(removed && ok) ==> file.content == old(file.content)
    {
      var before := |tasks|;
      RemoveShortens(tasks, id);
      RemoveFromAre(tasks, id);
      tasks := RemoveFrom(tasks, id);
      removed := |tasks| < before;
      ok := true;
      if removed {
        file.Save(tasks, result);
        ok := result.Saved?;
      }
    }

    method UpdateTaskStatus(id: TaskId, at: Time, result: SaveResult) returns (ok: bool)
      modifies this, file
      ensures tasks == MarkIn(old(tasks), id, at)
      ensures |tasks| == |old(tasks)|
      ensures forall i :: 0 <= i < |tasks| ==>
                if FirstWith(old(tasks), id, i) then StartedAs(old(tasks)[i], tasks[i], at) else tasks[i] == old(tasks)[i]
      ensures ok <==> result.Saved?
      ensures ok ==> Synced()
      ensures !ok ==> file.content == old(file.content)
    {
      var i := 0;
      while i < |tasks| && tasks[i].id != id
        invariant 0 <= i <= |tasks|
        invariant tasks == old(tasks) && file.content == old(file.content)
        invariant MarkIn(tasks, id, at) == tasks[..i] + MarkIn(tasks[i..], id, at)
        invariant forall j :: 0 <= j < i ==> tasks[j].id != id
      {
        MarkSkips(tasks, i, id, at);
        i := i + 1;
      }
      if i < |tasks| {
        MarkFound(tasks, i, id, at);
        tasks := tasks[i := tasks[i].(running := true, startedAt := Some(at))];
      } else {
        assert tasks[..i] == tasks && MarkIn(tasks[i..], id, at) == [];
      }
      file.Save(tasks, result);
      ok := result.Saved?;
    }
  }

  lemma MarkSkips(q: seq<PersistedTask>, i: nat, id: TaskId, at: Time)
    requires i < |q| && q[i].id != id
    ensures q[..i] + MarkIn(q[i..], id, at) == q[..i + 1] + MarkIn(q[i + 1..], id, at)
  {
    assert q[..i + 1] == q[..i] + [q[i]] && q[i..][1..] == q[i + 1..];
  }

  lemma MarkFound(q: seq<PersistedTask>, i: nat, id: TaskId, at: Time)
    requires i < |q| && q[i].id == id
    ensures q[..i] + MarkIn(q[i..], id, at) == q[i := q[i].(running := true, startedAt := Some(at))]
  {
    assert q[i..][1..] == q[i + 1..];
  }

  lemma {:induction false} RemoveShortens(q: seq<PersistedTask>, id: TaskId)
    ensures |RemoveFrom(q, id)| <= |q|
    ensures |RemoveFrom(q, id)| < |q| <==> HasId(q, id)
    ensures !HasId(q, id) ==> RemoveFrom(q, id) == q
  {
    if q != [] {
      var front, last := q[..|q| - 1], q[|q| - 1];
      RemoveShortens(front, id);
      HasIdPush(front, last, id);
      assert front + [last] == q;
    }
  }
}
