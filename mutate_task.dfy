/** The settle handlers of the `useMutateTask` hook's three mutations. Each
    handler runs after its HTTP request has completed; the request itself is
    not modelled, its outcome is the handler's argument. The hook's shared
    state is three slots: the `['tasks']` entry of the query cache, the
    edited-task draft of the UI store, and the router's current route. */
module MutateTask {
  import opened Wrappers
  import opened TaskList

  /** The task being composed or edited in the UI store. Its type is not
      part of this model; the fields below are assumed, and no handler reads
      them. */
  datatype EditedTask = EditedTask(id: int, title: string, description: string)

  /** The HTTP response an error may carry. */
  datatype Response = Response(status: int)

  /** A failed request: an HTTP error carries a response, a network failure
      carries none. */
  datatype RequestError = RequestError(response: Option<Response>)

  /** The route a handler sends the client to on an authorization failure:
      the application's root. */
  const RootRoute: string := "/"

  /** The statuses that send the client back to the root route: 401 and 403,
      and no other. */
  predicate IsAuthFailure(status: int)
  {
    status == 401 || status == 403
  }

  /** The state the hook's handlers read and write. */
  class Mutations {
    /** The `['tasks']` query-cache entry; `None` when nothing is cached. */
    var tasks: Option<seq<Task>>
    /** The edited-task draft; `None` once it has been reset. */
    var editedTask: Option<EditedTask>
    /** The route the client is on. */
    var route: string

    constructor (tasks: Option<seq<Task>>, editedTask: Option<EditedTask>, route: string)
      ensures this.tasks == tasks && this.editedTask == editedTask && this.route == route
    {
      this.tasks := tasks;
      this.editedTask := editedTask;
      this.route := route;
    }

    /** Resets the edited-task draft. */
    method Reset()
      modifies this`editedTask
      ensures editedTask == None
    {
      editedTask := None;
    }

    /** Create succeeded with the server's record `res`: a cached list gets
        `res` at its head, an absent cache stays absent; the draft is reset. */
    method CreateOnSuccess(res: Task)
      modifies this
      ensures old(tasks).Some? ==> tasks == Some(Prepend(res, old(tasks).value))
      ensures old(tasks).None? ==> tasks == None
      ensures editedTask == None
      ensures route == old(route)
    {
      var previousTodos := tasks;
      if previousTodos.Some? {
        tasks := Some(Prepend(res, previousTodos.value));
      }
      Reset();
    }

    /** Update succeeded with the server's record `res`. The cached list is
        patched by the RESPONSE's id; the request's own task (`variables`)
        plays no part. An absent cache stays absent; the draft is reset. */
    method UpdateOnSuccess(res: Task, variables: EditedTask)
      modifies this
      ensures old(tasks).Some? ==> tasks == Some(ReplaceById(old(tasks).value, res))
      ensures old(tasks).None? ==> tasks == None
      ensures editedTask == None
      ensures route == old(route)
    {
      var previousTodos := tasks;
      if previousTodos.Some? {
        tasks := Some(ReplaceById(previousTodos.value, res));
      }
      Reset();
    }

    /** Delete succeeded for the requested id `variables`: the cached list
        loses the tasks with that id. An absent cache stays absent; the draft
        is reset. */
    method DeleteOnSuccess(variables: int)
      modifies this
      ensures old(tasks).Some? ==> tasks == Some(RemoveById(old(tasks).value, variables))
      ensures old(tasks).None? ==> tasks == None
      ensures editedTask == None
      ensures route == old(route)
    {
      var previousTodos := tasks;
      if previousTodos.Some? {
        tasks := Some(RemoveById(previousTodos.value, variables));
      }
      Reset();
    }

    /** The error handler, the same for all three mutations. The draft is
        reset first. Reading the status of an error without a response throws
        (`threw`), after the reset and before any navigation. Otherwise a 401
        or 403 sends the client to the root route and any other status leaves
        the route alone. The cache is never touched. */
    method OnError(err: RequestError) returns (threw: bool)
      modifies this
      ensures editedTask == None
      ensures tasks == old(tasks)
      ensures threw <==> err.response.None?
      ensures !threw && IsAuthFailure(err.response.value.status) ==> route == RootRoute
      ensures threw || !IsAuthFailure(err.response.value.status) ==> route == old(route)
    {
      Reset();
      if err.response.None? {
        return true;
      }
      if IsAuthFailure(err.response.value.status) {
        route := RootRoute;
      }
      return false;
    }
  }

  /** A client of the handlers: the results callers can rely on from the
      contracts alone, on a cached list `[2, 1]`. */
  method Scenario(t1: Task, t2: Task, t3: Task, d: EditedTask)
    requires t1.id == 1 && t2.id == 2 && t3.id == 3
  {
    var m := new Mutations(Some([t2, t1]), Some(d), "/todo");
    m.CreateOnSuccess(t3);
    assert Prepend(t3, [t2, t1]) == [t3, t2, t1];
    assert m.tasks == Some([t3, t2, t1]) && m.editedTask == None;
    m.DeleteOnSuccess(3);
    assert m.tasks == Some([t2, t1]) by {
      RemoveByIdUnique([t3, t2, t1], 0);
      assert [t3, t2, t1][..0] + [t3, t2, t1][1..] == [t2, t1];
    }
    var threw := m.OnError(RequestError(Some(Response(500))));
    assert !threw && m.route == "/todo";
    threw := m.OnError(RequestError(Some(Response(401))));
    assert !threw && m.route == "/";
    threw := m.OnError(RequestError(None));
    assert threw && m.tasks == Some([t2, t1]);
  }
}
