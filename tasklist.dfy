/**
 * The list transforms the board applies to its in-memory `todos`: the
 * merge-by-id of an update, the filter of a delete and the rewrite of a
 * task's embedded subtask list.
 */
module TaskList {
  import opened Wrappers
  import opened Records

  /** The ids of a task list, in order. */
  function Ids(s: seq<Task>): (r: seq<string>)
    ensures |r| == |s|
    ensures forall i :: 0 <= i < |s| ==> r[i] == s[i].id
  {
    seq(|s|, i requires 0 <= i < |s| => s[i].id)
  }

  /** `s.map(t => t.id === id ? { ...t, ...p } : t)`. */
  function MergeById(s: seq<Task>, id: string, p: Patch): (r: seq<Task>)
    ensures |r| == |s|
    decreases |s|
  {
    if s == [] then []
    else [if s[0].id == id then ApplyPatch(s[0], p) else s[0]] + MergeById(s[1..], id, p)
  }

  /** Only the entries carrying `id` take the patch; every other entry, and the order, stay. */
  lemma {:induction false} MergeByIdAt(s: seq<Task>, id: string, p: Patch, i: int)
    requires 0 <= i < |s|
    ensures MergeById(s, id, p)[i] == if s[i].id == id then ApplyPatch(s[i], p) else s[i]
    decreases |s|
  {
    if i > 0 {
      MergeByIdAt(s[1..], id, p, i - 1);
    }
  }

  /** The merge keeps the list's ids, position by position. */
  lemma {:induction false} MergeByIdKeepsIds(s: seq<Task>, id: string, p: Patch)
    ensures Ids(MergeById(s, id, p)) == Ids(s)
  {
    forall i | 0 <= i < |s| ensures MergeById(s, id, p)[i].id == s[i].id {
      MergeByIdAt(s, id, p, i);
    }
  }

  /** Merging a patch for an id that is not in the list changes nothing. */
  lemma {:induction false} MergeByIdAbsent(s: seq<Task>, id: string, p: Patch)
    requires id !in Ids(s)
    ensures MergeById(s, id, p) == s
  {
    forall i | 0 <= i < |s| ensures MergeById(s, id, p)[i] == s[i] {
      MergeByIdAt(s, id, p, i);
      assert Ids(s)[i] == s[i].id;
    }
  }

  /** Applying the same update twice leaves the list as applying it once. */
  lemma {:induction false} MergeByIdIdempotent(s: seq<Task>, id: string, p: Patch)
    ensures MergeById(MergeById(s, id, p), id, p) == MergeById(s, id, p)
  {
    var once := MergeById(s, id, p);
    forall i | 0 <= i < |s| ensures MergeById(once, id, p)[i] == once[i] {
      MergeByIdAt(s, id, p, i);
      MergeByIdAt(once, id, p, i);
      ApplyPatchIdempotent(s[i], p);
    }
  }

  /** `s.filter(t => t.id !== id)`. */
  function RemoveById(s: seq<Task>, id: string): (r: seq<Task>)
    ensures |r| <= |s|
    decreases |s|
  {
    if s == [] then []
    else if s[0].id == id then RemoveById(s[1..], id)
    else [s[0]] + RemoveById(s[1..], id)
  }

  /**
   * The filter drops every entry with the id and keeps every other entry as
   * often as it occurred.
   */
  lemma {:induction false} RemoveByIdCounts(s: seq<Task>, id: string, t: Task)
    ensures multiset(RemoveById(s, id))[t] == if t.id == id then 0 else multiset(s)[t]
    decreases |s|
  {
    if s != [] {
      RemoveByIdCounts(s[1..], id, t);
      assert s == [s[0]] + s[1..];
    }
  }

  /** No entry with the id survives. */
  lemma {:induction false} RemoveByIdGone(s: seq<Task>, id: string)
    ensures id !in Ids(RemoveById(s, id))
  {
    var r := RemoveById(s, id);
    if id in Ids(r) {
      var i :| 0 <= i < |r| && Ids(r)[i] == id;
      assert r[i] in multiset(r);
      RemoveByIdCounts(s, id, r[i]);
      assert false;
    }
  }

  /** The filter works piecewise, so the surviving entries keep their relative order. */
  lemma {:induction false} RemoveByIdAppend(a: seq<Task>, b: seq<Task>, id: string)
    ensures RemoveById(a + b, id) == RemoveById(a, id) + RemoveById(b, id)
    decreases |a|
  {
    if a != [] {
      RemoveByIdAppend(a[1..], b, id);
      assert (a + b)[1..] == a[1..] + b;
    } else {
      assert a + b == b;
    }
  }

  /** Deleting an id that is not in the list changes nothing. */
  lemma {:induction false} RemoveByIdAbsent(s: seq<Task>, id: string)
    requires id !in Ids(s)
    ensures RemoveById(s, id) == s
    decreases |s|
  {
    if s != [] {
      assert Ids(s)[0] == s[0].id;
      assert Ids(s[1..]) == Ids(s)[1..];
      RemoveByIdAbsent(s[1..], id);
      assert s == [s[0]] + s[1..];
    }
  }

  /** The whole-list rewrite of `addQuickSubTask`: `sub` appended to the task's list. */
  function AppendSubtask(s: seq<Task>, task: Task, sub: Subtask): seq<Task> {
    MergeById(s, task.id, SubtasksPatch(task.subtasks + [sub]))
  }

  /**
   * Every entry with the task's id gets the task's subtasks plus `sub` at the end
   * and keeps its other fields; every other entry is untouched.
   */
  lemma AppendSubtaskAt(s: seq<Task>, task: Task, sub: Subtask, i: int)
    requires 0 <= i < |s|
    ensures |AppendSubtask(s, task, sub)| == |s|
    ensures s[i].id == task.id ==>
      AppendSubtask(s, task, sub)[i] == s[i].(subtasks := task.subtasks + [sub])
    ensures s[i].id != task.id ==> AppendSubtask(s, task, sub)[i] == s[i]
  {
    MergeByIdAt(s, task.id, SubtasksPatch(task.subtasks + [sub]), i);
  }

  /** The list with the completion flag of entry `i` flipped, as the checkbox does. */
  function ToggleAt(subs: seq<Subtask>, i: int): (r: seq<Subtask>)
    requires 0 <= i < |subs|
    ensures |r| == |subs|
    ensures r[i].completed == !subs[i].completed
    ensures r[i].(completed := subs[i].completed) == subs[i]
    ensures forall j :: 0 <= j < |subs| && j != i ==> r[j] == subs[j]
  {
    subs[i := subs[i].(completed := !subs[i].completed)]
  }

  /** Toggling the same entry twice restores the list. */
  lemma ToggleAtInvolution(subs: seq<Subtask>, i: int)
    requires 0 <= i < |subs|
    ensures ToggleAt(ToggleAt(subs, i), i) == subs
  {
  }

  /**
   * The local outcome of a subtask toggle as the handler is written: the flip
   * is made on the subtask object that the current list shares (entry `k`),
   * before the remote update is attempted, and the merge of a successful
   * update comes on top of it.
   */
  function ToggleAsWritten(s: seq<Task>, k: int, i: int, ok: bool): seq<Task>
    requires 0 <= k < |s| && 0 <= i < |s[k].subtasks|
  {
    var n := ToggleAt(s[k].subtasks, i);
    var shared := s[k := s[k].(subtasks := n)];
    if ok then MergeById(shared, s[k].id, SubtasksPatch(n)) else shared
  }

  /** As written, a failed remote update still leaves the flip in the local list. */
  lemma ToggleAsWrittenKeepsFlipOnError(s: seq<Task>, k: int, i: int)
    requires 0 <= k < |s| && 0 <= i < |s[k].subtasks|
    ensures ToggleAsWritten(s, k, i, false) != s
    ensures ToggleAsWritten(s, k, i, false)[k].subtasks[i].completed != s[k].subtasks[i].completed
  {
  }

  /**
   * The intended local outcome of a toggle: the non-completion update path,
   * which merges the rewritten list on success and changes nothing on failure.
   */
  function ToggleLocal(s: seq<Task>, task: Task, i: int, ok: bool): seq<Task>
    requires 0 <= i < |task.subtasks|
  {
    if ok then MergeById(s, task.id, SubtasksPatch(ToggleAt(task.subtasks, i))) else s
  }

  /**
   * A toggle changes nothing when the update fails; when it succeeds, every
   * entry with the toggled task's id gets the task's list with exactly
   * subtask `i` flipped and keeps its other fields, and every entry with
   * another id is untouched.
   */
  lemma ToggleLocalEffect(s: seq<Task>, k: int, i: int, ok: bool, j: int)
    requires 0 <= k < |s| && 0 <= i < |s[k].subtasks| && 0 <= j < |s|
    ensures !ok ==> ToggleLocal(s, s[k], i, ok) == s
    ensures |ToggleLocal(s, s[k], i, ok)| == |s|
    ensures ok ==>
      ToggleLocal(s, s[k], i, ok)[j] ==
        if s[j].id == s[k].id then s[j].(subtasks := ToggleAt(s[k].subtasks, i)) else s[j]
    ensures s[j].id != s[k].id ==> ToggleLocal(s, s[k], i, ok)[j] == s[j]
  {
    if ok {
      MergeByIdAt(s, s[k].id, SubtasksPatch(ToggleAt(s[k].subtasks, i)), j);
    }
  }

  /** On success the as-written handler and the intended one leave the same list. */
  lemma ToggleAsWrittenAgreesOnSuccess(s: seq<Task>, k: int, i: int)
    requires 0 <= k < |s| && 0 <= i < |s[k].subtasks|
    ensures ToggleAsWritten(s, k, i, true) == ToggleLocal(s, s[k], i, true)
  {
    var n := ToggleAt(s[k].subtasks, i);
    var shared := s[k := s[k].(subtasks := n)];
    var p := SubtasksPatch(n);
    forall j | 0 <= j < |s|
      ensures MergeById(shared, s[k].id, p)[j] == MergeById(s, s[k].id, p)[j]
    {
      MergeByIdAt(shared, s[k].id, p, j);
      MergeByIdAt(s, s[k].id, p, j);
    }
  }
}
