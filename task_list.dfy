/**
 * The list transforms the task controller (hooks/useTodos.ts) applies to its tasks: `find`
 * by id, the `map` that flips `completed`, and the `filter` that drops a task.
 */
module TaskList {
  import opened Wrappers
  import opened Types

  /** Whether some task carries the id. */
  predicate HasId(tasks: seq<Task>, id: string) {
    exists i :: 0 <= i < |tasks| && tasks[i].id == id
  }

  /** An id occurs in a non-empty list iff it is the head's or occurs in the tail. */
  lemma HasIdCons(tasks: seq<Task>, id: string)
    requires tasks != []
    ensures HasId(tasks, id) <==> tasks[0].id == id || HasId(tasks[1..], id)
  {
    if HasId(tasks[1..], id) {
      var j :| 0 <= j < |tasks[1..]| && tasks[1..][j].id == id;
      assert tasks[j + 1].id == id;
    }
    if HasId(tasks, id) && tasks[0].id != id {
      var j :| 0 <= j < |tasks| && tasks[j].id == id;
      assert tasks[1..][j - 1].id == id;
    }
  }

  /** `tasks.find(t => t.id === id)`: the first task with the id. */
  function FindById(tasks: seq<Task>, id: string): (r: Option<Task>)
    ensures r.None? <==> !HasId(tasks, id)
    ensures r.Some? ==> r.value in tasks && r.value.id == id
  {
    if tasks == [] then None
    else if tasks[0].id == id then Some(tasks[0])
    else
      HasIdCons(tasks, id);
      FindById(tasks[1..], id)
  }

  /** What is found is the first task with the id: one at index `k` with no match before it. */
  lemma {:induction false} FindByIdIsFirst(tasks: seq<Task>, id: string, k: int)
    requires 0 <= k < |tasks| && tasks[k].id == id
    requires forall i :: 0 <= i < k ==> tasks[i].id != id
    ensures FindById(tasks, id) == Some(tasks[k])
  {
    if k > 0 {
      assert tasks[0].id != id;
      FindByIdIsFirst(tasks[1..], id, k - 1);
    }
  }

  /** `{ ...t, completed: !t.completed }`. */
  function Flip(t: Task): (r: Task)
    ensures r.completed == !t.completed
    ensures r.(completed := t.completed) == t
  {
    t.(completed := !t.completed)
  }

  /** `tasks.map(t => t.id === id ? Flip(t) : t)`: the optimistic list of a toggle. */
  function Toggled(tasks: seq<Task>, id: string): (r: seq<Task>)
    ensures |r| == |tasks|
    ensures forall i :: 0 <= i < |tasks| && tasks[i].id == id ==> r[i] == Flip(tasks[i])
    ensures forall i :: 0 <= i < |tasks| && tasks[i].id != id ==> r[i] == tasks[i]
  {
    if tasks == [] then []
    else [if tasks[0].id == id then Flip(tasks[0]) else tasks[0]] + Toggled(tasks[1..], id)
  }

  /** Toggling keeps every task's id and every field but `completed`, position by position. */
  lemma ToggledKeepsAllButCompleted(tasks: seq<Task>, id: string, i: int)
    requires 0 <= i < |tasks|
    ensures Toggled(tasks, id)[i].(completed := tasks[i].completed) == tasks[i]
    ensures Toggled(tasks, id)[i].completed == (tasks[i].completed != (tasks[i].id == id))
  {
  }

  /** Toggling the same id twice restores the list. */
  lemma {:induction false} ToggledTwice(tasks: seq<Task>, id: string)
    ensures Toggled(Toggled(tasks, id), id) == tasks
  {
    if tasks != [] {
      ToggledTwice(tasks[1..], id);
      assert Toggled(tasks, id)[1..] == Toggled(tasks[1..], id);
      assert tasks == [tasks[0]] + tasks[1..];
    }
  }

  /** Toggling an id no task has changes nothing. */
  lemma {:induction false} ToggledAbsent(tasks: seq<Task>, id: string)
    requires !HasId(tasks, id)
    ensures Toggled(tasks, id) == tasks
  {
    if tasks != [] {
      HasIdCons(tasks, id);
      ToggledAbsent(tasks[1..], id);
      assert tasks[0].id != id;
      assert tasks == [tasks[0]] + tasks[1..];
    }
  }

  /** `tasks.filter(t => t.id !== id)`: the optimistic list of a delete. */
  function Without(tasks: seq<Task>, id: string): (r: seq<Task>)
    ensures |r| <= |tasks|
    ensures forall i :: 0 <= i < |r| ==> r[i].id != id
  {
    if tasks == [] then []
    else (if tasks[0].id == id then [] else [tasks[0]]) + Without(tasks[1..], id)
  }

  /** A task survives a delete exactly when it was in the list and does not carry the id. */
  lemma {:induction false} WithoutMembers(tasks: seq<Task>, id: string, t: Task)
    ensures t in Without(tasks, id) <==> t in tasks && t.id != id
  {
    if tasks != [] {
      WithoutMembers(tasks[1..], id, t);
      assert t in tasks <==> t == tasks[0] || t in tasks[1..] by {
        assert tasks == [tasks[0]] + tasks[1..];
      }
    }
  }

  /** `sub` is `s` with some elements left out and the rest in their original order. */
  predicate IsSubsequence(sub: seq<Task>, s: seq<Task>)
    decreases |s|
  {
    sub == [] || (s != [] && ((sub[0] == s[0] && IsSubsequence(sub[1..], s[1..])) || IsSubsequence(sub, s[1..])))
  }

  /** The tasks that survive a delete keep their relative order. */
  lemma {:induction false} WithoutIsSubsequence(tasks: seq<Task>, id: string)
    ensures IsSubsequence(Without(tasks, id), tasks)
  {
    if tasks != [] {
      WithoutIsSubsequence(tasks[1..], id);
      var rest := Without(tasks[1..], id);
      if tasks[0].id != id {
        assert Without(tasks, id) == [tasks[0]] + rest;
        assert ([tasks[0]] + rest)[1..] == rest;
      } else {
        assert Without(tasks, id) == rest;
      }
    }
  }

  /** Filtering distributes over concatenation, so survivors keep their order across any split. */
  lemma {:induction false} WithoutAppend(a: seq<Task>, b: seq<Task>, id: string)
    ensures Without(a + b, id) == Without(a, id) + Without(b, id)
  {
    if a == [] {
      assert a + b == b;
    } else {
      WithoutAppend(a[1..], b, id);
      var head := if a[0].id == id then [] else [a[0]];
      assert (a + b)[0] == a[0];
      assert (a + b)[1..] == a[1..] + b;
      calc {
        Without(a + b, id);
        head + Without(a[1..] + b, id);
        head + (Without(a[1..], id) + Without(b, id));
        (head + Without(a[1..], id)) + Without(b, id);
        Without(a, id) + Without(b, id);
      }
    }
  }

  /** Deleting an id no task has changes nothing. */
  lemma {:induction false} WithoutAbsent(tasks: seq<Task>, id: string)
    requires !HasId(tasks, id)
    ensures Without(tasks, id) == tasks
  {
    if tasks != [] {
      HasIdCons(tasks, id);
      WithoutAbsent(tasks[1..], id);
      assert tasks[0].id != id;
      assert tasks == [tasks[0]] + tasks[1..];
    }
  }

  /** The number of tasks carrying the id. */
  function CountId(tasks: seq<Task>, id: string): nat {
    if tasks == [] then 0 else (if tasks[0].id == id then 1 else 0) + CountId(tasks[1..], id)
  }

  /** A delete drops exactly the tasks carrying the id. */
  lemma {:induction false} WithoutLength(tasks: seq<Task>, id: string)
    ensures |Without(tasks, id)| + CountId(tasks, id) == |tasks|
  {
    if tasks != [] {
      WithoutLength(tasks[1..], id);
    }
  }

  /** Deleting after toggling the same id is the same as deleting. */
  lemma {:induction false} WithoutToggled(tasks: seq<Task>, id: string)
    ensures Without(Toggled(tasks, id), id) == Without(tasks, id)
  {
    if tasks != [] {
      WithoutToggled(tasks[1..], id);
      assert Toggled(tasks, id)[1..] == Toggled(tasks[1..], id);
    }
  }
}
