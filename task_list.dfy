/** The task list held in the `['tasks']` query-cache slot, and the three
    list transformations the mutation handlers apply to it: the prepend of a
    created task, the replace-by-id of an updated task and the filter of a
    deleted id. All three are pure: they build a new list and leave the old
    one as it was. */
module TaskList {

  /** A task record. Only the server-assigned `id` matters to the cache
      patches; the record's other fields, whose definition is not part of
      this model, are kept together as an opaque payload. */
  datatype Task = Task(id: int, payload: string)

  /** The ids of a list, in order. */
  function Ids(s: seq<Task>): (r: seq<int>)
    ensures |r| == |s|
    ensures forall i :: 0 <= i < |s| ==> r[i] == s[i].id
  {
    if s == [] then [] else [s[0].id] + Ids(s[1..])
  }

  /** Some element of `s` carries id `k`. */
  predicate HasId(s: seq<Task>, k: int)
  {
    exists i :: 0 <= i < |s| && s[i].id == k
  }

  /** No two elements of `s` share an id: the invariant the backend's
      unique, monotonically issued ids give the cached list. */
  predicate UniqueIds(s: seq<Task>)
  {
    forall i, j :: 0 <= i < j < |s| ==> s[i].id != s[j].id
  }

  /** How many elements of `s` carry id `k`. */
  function CountId(s: seq<Task>, k: int): nat
  {
    if s == [] then 0 else (if s[0].id == k then 1 else 0) + CountId(s[1..], k)
  }

  /** `r` keeps some of the elements of `s`, in their original relative
      order. */
  ghost predicate IsSubsequence(r: seq<Task>, s: seq<Task>)
    decreases |s|
  {
    if r == [] then true
    else if s == [] then false
    else (r[0] == s[0] && IsSubsequence(r[1..], s[1..])) || IsSubsequence(r, s[1..])
  }

  // ---------------------------------------------------------------------
  // Create: `[res, ...previousTodos]`
  // ---------------------------------------------------------------------

  /** The created task goes to the head of the list. */
  function Prepend(res: Task, s: seq<Task>): (r: seq<Task>)
    ensures |r| == |s| + 1
    ensures r[0] == res && r[1..] == s
  {
    [res] + s
  }

  /** Prepending keeps the ids unique exactly when the created task's id is
      new to the list. */
  lemma PrependUnique(res: Task, s: seq<Task>)
    ensures UniqueIds(Prepend(res, s)) <==> UniqueIds(s) && !HasId(s, res.id)
  {
  }

  // ---------------------------------------------------------------------
  // Update: `previousTodos.map((task) => (task.id === res.id ? res : task))`
  // ---------------------------------------------------------------------

  /** Every element whose id equals the response's id becomes the response;
      the list of ids never changes. */
  function ReplaceById(s: seq<Task>, res: Task): (r: seq<Task>)
    ensures Ids(r) == Ids(s)
  {
    if s == [] then []
    else [if s[0].id == res.id then res else s[0]] + ReplaceById(s[1..], res)
  }

  /** The update patch, element by element: same length, same positions; an
      element with the response's id is replaced by the response, every
      other element is left as it was at the same index. */
  lemma {:induction false} ReplaceByIdAt(s: seq<Task>, res: Task)
    ensures |ReplaceById(s, res)| == |s|
    ensures forall i :: 0 <= i < |s| ==>
              ReplaceById(s, res)[i] == (if s[i].id == res.id then res else s[i])
  {
    if s != [] {
      ReplaceByIdAt(s[1..], res);
      var r := ReplaceById(s, res);
      forall i | 0 <= i < |s|
        ensures r[i] == (if s[i].id == res.id then res else s[i])
      {
        if i > 0 {
          assert r[i] == ReplaceById(s[1..], res)[i - 1];
        }
      }
    }
  }

  /** When no cached task has the response's id, the update patch leaves the
      list unchanged. */
  lemma {:induction false} ReplaceByIdAbsent(s: seq<Task>, res: Task)
    requires !HasId(s, res.id)
    ensures ReplaceById(s, res) == s
  {
    ReplaceByIdAt(s, res);
  }

  /** Applying the same update response twice gives the list applying it
      once gives. */
  lemma {:induction false} ReplaceByIdIdempotent(s: seq<Task>, res: Task)
    ensures ReplaceById(ReplaceById(s, res), res) == ReplaceById(s, res)
  {
    var r := ReplaceById(s, res);
    ReplaceByIdAt(s, res);
    ReplaceByIdAt(r, res);
  }

  /** With unique ids and the response's id at index `i`, exactly that one
      element is replaced. */
  lemma {:induction false} ReplaceByIdUnique(s: seq<Task>, res: Task, i: int)
    requires UniqueIds(s)
    requires 0 <= i < |s| && s[i].id == res.id
    ensures ReplaceById(s, res) == s[i := res]
  {
    ReplaceByIdAt(s, res);
  }

  /** The update patch keeps the ids unique. */
  lemma ReplaceByIdKeepsUnique(s: seq<Task>, res: Task)
    requires UniqueIds(s)
    ensures UniqueIds(ReplaceById(s, res))
  {
  }

  // ---------------------------------------------------------------------
  // Delete: `previousTodos.filter((task) => task.id !== variables)`
  // ---------------------------------------------------------------------

  /** Keeps the elements whose id differs from the deleted id `k`: no
      element with id `k` survives and the list never grows. */
  function RemoveById(s: seq<Task>, k: int): (r: seq<Task>)
    ensures |r| <= |s|
    ensures !HasId(r, k)
  {
    if s == [] then []
    else if s[0].id != k then [s[0]] + RemoveById(s[1..], k)
    else RemoveById(s[1..], k)
  }

  /** A task is in the result of the delete patch exactly when it was in the
      list with an id other than the deleted one. */
  lemma {:induction false} RemoveByIdMembers(s: seq<Task>, k: int)
    ensures forall t :: t in RemoveById(s, k) <==> t in s && t.id != k
  {
    if s != [] {
      RemoveByIdMembers(s[1..], k);
      assert s == [s[0]] + s[1..];
    }
  }

  /** The delete patch drops exactly as many elements as carry id `k`. */
  lemma {:induction false} RemoveByIdLength(s: seq<Task>, k: int)
    ensures |RemoveById(s, k)| == |s| - CountId(s, k)
  {
    if s != [] {
      RemoveByIdLength(s[1..], k);
    }
  }

  /** The survivors keep their original relative order. */
  lemma {:induction false} RemoveByIdOrder(s: seq<Task>, k: int)
    ensures IsSubsequence(RemoveById(s, k), s)
  {
    if s != [] {
      RemoveByIdOrder(s[1..], k);
      var r := RemoveById(s, k);
      if s[0].id != k {
        assert r[0] == s[0] && r[1..] == RemoveById(s[1..], k);
      } else if r != [] {
        assert r == RemoveById(s[1..], k);
      }
    }
  }

  /** Filtering a concatenation filters each part: nothing moves across the
      removed elements. */
  lemma {:induction false} RemoveByIdAppend(a: seq<Task>, b: seq<Task>, k: int)
    ensures RemoveById(a + b, k) == RemoveById(a, k) + RemoveById(b, k)
  {
    if a == [] {
      assert a + b == b;
    } else {
      assert (a + b)[0] == a[0] && (a + b)[1..] == a[1..] + b;
      RemoveByIdAppend(a[1..], b, k);
    }
  }

  /** When no cached task has the deleted id, the delete patch leaves the
      list unchanged. */
  lemma {:induction false} RemoveByIdAbsent(s: seq<Task>, k: int)
    requires !HasId(s, k)
    ensures RemoveById(s, k) == s
  {
    if s != [] {
      RemoveByIdAbsent(s[1..], k);
    }
  }

  /** With unique ids, the id at index `i` occurs nowhere before or after
      that index. */
  lemma UniqueIdsSplit(s: seq<Task>, i: int)
    requires UniqueIds(s)
    requires 0 <= i < |s|
    ensures !HasId(s[..i], s[i].id) && !HasId(s[i + 1..], s[i].id)
  {
  }

  /** With unique ids, deleting the id found at index `i` removes exactly that
      element, so the list is one shorter. */
  lemma RemoveByIdUnique(s: seq<Task>, i: int)
    requires UniqueIds(s)
    requires 0 <= i < |s|
    ensures RemoveById(s, s[i].id) == s[..i] + s[i + 1..]
    ensures |RemoveById(s, s[i].id)| == |s| - 1
  {
    var k, a, b := s[i].id, s[..i], s[i + 1..];
    UniqueIdsSplit(s, i);
    RemoveByIdAbsent(a, k);
    RemoveByIdAbsent(b, k);
    var c := [s[i]] + b;
    assert c[0].id == k && c[1..] == b;
    assert RemoveById(c, k) == b;
    assert s == a + c;
    RemoveByIdAppend(a, c, k);
  }

  /** Deleting the same id twice gives the list deleting it once gives. */
  lemma {:induction false} RemoveByIdIdempotent(s: seq<Task>, k: int)
    ensures RemoveById(RemoveById(s, k), k) == RemoveById(s, k)
  {
    RemoveByIdAbsent(RemoveById(s, k), k);
  }

  /** The delete patch keeps the ids unique. */
  lemma {:induction false} RemoveByIdKeepsUnique(s: seq<Task>, k: int)
    requires UniqueIds(s)
    ensures UniqueIds(RemoveById(s, k))
  {
    if s != [] {
      assert UniqueIds(s[1..]) by {
        forall i, j | 0 <= i < j < |s[1..]| ensures s[1..][i].id != s[1..][j].id {
          assert s[1..][i] == s[i + 1] && s[1..][j] == s[j + 1];
        }
      }
      RemoveByIdKeepsUnique(s[1..], k);
      RemoveByIdMembers(s[1..], k);
      var tail := RemoveById(s[1..], k);
      if s[0].id != k {
        var r := [s[0]] + tail;
        forall i, j | 0 <= i < j < |r| ensures r[i].id != r[j].id {
          if i == 0 {
            assert r[j] in tail;
            assert r[j] in s[1..];
            var m :| 0 <= m < |s[1..]| && s[1..][m] == r[j];
            assert s[m + 1] == r[j];
          } else {
            assert r[i] == tail[i - 1] && r[j] == tail[j - 1];
          }
        }
      }
    }
  }

  /** The three list patches on small concrete lists: the create, update and
      delete examples a client of the hook would see. */
  lemma Examples(p1: string, p2: string, p3: string, x: string)
    ensures Prepend(Task(3, p3), [Task(2, p2), Task(1, p1)])
              == [Task(3, p3), Task(2, p2), Task(1, p1)]
    ensures ReplaceById([Task(2, p2), Task(1, p1)], Task(1, x))
              == [Task(2, p2), Task(1, x)]
    ensures RemoveById([Task(2, p2), Task(1, p1)], 1) == [Task(2, p2)]
  {
  }
}
