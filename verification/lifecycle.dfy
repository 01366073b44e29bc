/** The component's life as a sequence of user events and server
    outcomes, the invariant every step keeps, and the properties that
    relate several handlers. */
module Lifecycle {
  import opened Wrappers
  import opened Text
  import opened TodoList
  import opened App

  /** One thing that can happen to the component: the mount effect, a
      handler fired with the server's outcome (and the confirm answer), or
      an input field's `onChange`. `ListArrived` is the response to a
      ListCall issued earlier by `Mounted` or `LoginSubmitted`.

      Events are deliberately not restricted by which screen is shown (the
      login form or the list): every handler may fire in any state, which
      over-approximates what the UI allows. The one exception is typing
      into the draft input, which exists only while a draft is open; the
      `Settled` invariant depends on it. Likewise `Mounted` may occur at any
      point, though the effect runs once on the initial state; a reload of
      the page is `Mount(storage)`. */
  datatype Event =
    | Mounted
    | LoginSubmitted(loginResp: Response<Session>)
    | LoggedOut
    | ListArrived(listResp: Response<seq<Todo>>)
    | AddSubmitted(addResp: Response<Todo>)
    | ToggleClicked(todo: Todo, todoResp: Response<Todo>)
    | EditSaved(todo: Todo, todoResp: Response<Todo>)
    | DeleteClicked(todo: Todo, confirmed: bool, deleteResp: Response<()>)
    | EditStarted(todo: Todo)
    | EditCancelled
    | UsernameTyped(text: string)
    | PasswordTyped(text: string)
    | NewTodoTyped(text: string)
    | EditTitleTyped(text: string)

  /** One event. Typing sends nothing and changes only its own input (the
      draft text only while a draft is open); every other event runs the
      handler of the same name. */
  function Step(s: State, e: Event): (r: Transition)
    ensures e.UsernameTyped? ==>
      r == Transition(s.(loginForm := LoginForm(e.text, s.loginForm.password)), [])
    ensures e.PasswordTyped? ==>
      r == Transition(s.(loginForm := LoginForm(s.loginForm.username, e.text)), [])
    ensures e.NewTodoTyped? ==> r.sent == [] && r.state == s.(newTodo := e.text)
    ensures e.EditTitleTyped? ==> r.sent == [] && r.state == s.(editTitle := r.state.editTitle)
    ensures e.EditTitleTyped? && s.editingTodo.Some? ==> r.state.editTitle == e.text
    ensures e.EditTitleTyped? && s.editingTodo.None? ==> r.state == s
  {
    match e
    case Mounted => Restore(s)
    case LoginSubmitted(resp) => Login(s, resp)
    case LoggedOut => Logout(s)
    case ListArrived(resp) => Transition(FetchTodos(s, resp), [])
    case AddSubmitted(resp) => AddTodo(s, resp)
    case ToggleClicked(todo, resp) => ToggleComplete(s, todo, resp)
    case EditSaved(todo, resp) => EditTodo(s, todo, resp)
    case DeleteClicked(todo, confirmed, resp) => DeleteTodo(s, todo, confirmed, resp)
    case EditStarted(todo) => Transition(StartEdit(s, todo), [])
    case EditCancelled => Transition(CancelEdit(s), [])
    case UsernameTyped(v) => Transition(s.(loginForm := s.loginForm.(username := v)), [])
    case PasswordTyped(v) => Transition(s.(loginForm := s.loginForm.(password := v)), [])
    case NewTodoTyped(v) => Transition(s.(newTodo := v), [])
    case EditTitleTyped(v) =>
      // the draft input is only rendered while a draft is open
      if s.editingTodo.Some? then Transition(s.(editTitle := v), []) else Transition(s, [])
  }

  /** What holds of every state between events: nothing is loading, a
      closed draft has no text, and an adopted user is the stored user
      with a stored token. */
  predicate Settled(s: State) {
    && !s.loading
    && (s.editingTodo.None? ==> s.editTitle == "")
    && (s.user.Some? ==> s.storage.user == s.user && s.storage.token.Some?)
  }

  /** A request that needs the bearer credential carries a stored token. */
  predicate CarriesToken(rq: Request) {
    rq.LoginCall? || rq.token.Some?
  }

  /** Applies the events in order; the result holds the final state and
      every request sent, in order. Settled states stay settled, and a
      session only ever comes from the mount effect or a login. */
  function Run(s: State, events: seq<Event>): (r: Transition)
    ensures Settled(s) ==> Settled(r.state)
    ensures s.user.None? && (forall i :: 0 <= i < |events| ==> !events[i].Mounted? && !events[i].LoginSubmitted?)
            ==> r.state.user.None?
    decreases |events|
  {
    if events == [] then Transition(s, [])
    else
      var first := Step(s, events[0]);
      StepKeepsSettled(s, events[0]);
      StepKeepsSignedOut(s, events[0]);
      var rest := Run(first.state, events[1..]);
      Transition(rest.state, first.sent + rest.sent)
  }

  /** Every handler keeps the invariant. */
  lemma StepKeepsSettled(s: State, e: Event)
    ensures Settled(s) ==> Settled(Step(s, e).state)
  {
  }

  /** Only the mount effect and a login can set a user. */
  lemma StepKeepsSignedOut(s: State, e: Event)
    ensures s.user.None? && !e.Mounted? && !e.LoginSubmitted? ==> Step(s, e).state.user.None?
  {
  }

  /** The initial render is settled, and so is the state after mounting. */
  lemma MountIsSettled(storage: Storage)
    ensures Settled(Initial(storage))
    ensures Settled(Mount(storage).state)
  {
  }

  /** While the list view is shown (a user is set), every request a step
      sends carries the stored token. */
  lemma AuthenticatedCallsCarryToken(s: State, e: Event)
    requires Settled(s) && s.user.Some?
    ensures forall rq :: rq in Step(s, e).sent ==> CarriesToken(rq)
  {
  }

  /** After logging out, a fresh mount finds no session and sends nothing. */
  lemma LogoutThenMount(s: State)
    ensures Mount(Logout(s).state.storage) == Transition(Initial(EmptyStorage), [])
  {
  }

  /** A successful login persists a session that a fresh mount adopts,
      fetching the list with the same token; a login that yields an empty
      token persists a session the mount ignores. */
  lemma LoginThenMount(s: State, session: Session)
    ensures var stored := Login(s, Ok(session)).state.storage;
      session.token != "" ==>
        Mount(stored) == Transition(Initial(stored).(user := Some(session.user)),
                                    [ListCall(Some(session.token))])
    ensures var stored := Login(s, Ok(session)).state.storage;
      session.token == "" ==> Mount(stored) == Transition(Initial(stored), [])
  {
  }

  /** A failed login leaves whatever the next mount would restore unchanged. */
  lemma FailedLoginKeepsStorage(s: State, resp: Response<Session>)
    requires !resp.Ok?
    ensures Mount(Login(s, resp).state.storage) == Mount(s.storage)
  {
  }

  /** Starting an edit replaces any earlier draft outright. */
  lemma StartEditReplacesDraft(s: State, a: Todo, b: Todo)
    ensures StartEdit(StartEdit(s, a), b) == StartEdit(s, b)
  {
  }

  /** Cancelling an edit leaves no trace of the draft. */
  lemma CancelEditForgetsDraft(s: State, a: Todo)
    ensures CancelEdit(StartEdit(s, a)) == CancelEdit(s)
  {
  }

  /** Adding an item with a fresh id and then deleting it (confirmed,
      successful) restores the list as it was before the add. */
  lemma AddThenDeleteRestoresList(s: State, todo: Todo)
    requires !IsBlank(s.newTodo)
    requires todo.id !in Ids(s.todos)
    ensures DeleteTodo(AddTodo(s, Ok(todo)).state, todo, true, Ok(())).state.todos == s.todos
  {
    AppendThenRemove(s.todos, todo);
  }

  /** Deleting an item after a successful toggle removes exactly what
      deleting it straight away would, when the server echoes its id. */
  lemma ToggleThenDelete(s: State, todo: Todo, updated: Todo)
    requires updated.id == todo.id
    ensures DeleteTodo(ToggleComplete(s, todo, Ok(updated)).state, todo, true, Ok(())).state.todos
         == DeleteTodo(s, todo, true, Ok(())).state.todos
  {
    RemoveAfterReplace(s.todos, todo.id, updated);
  }

  /** A failed save keeps the draft, so retrying it after the failure
      ends exactly where a first-time success would, except for the stale
      error. */
  lemma EditRetryAfterFailure(s: State, todo: Todo, failure: Response<Todo>, updated: Todo)
    requires !failure.Ok?
    ensures var retried := EditTodo(EditTodo(s, todo, failure).state, todo, Ok(updated));
            var direct := EditTodo(s, todo, Ok(updated));
            retried.state == direct.state.(error := retried.state.error)
            && retried.sent == direct.sent
  {
  }

  /** A failed fetch keeps the old list, and a later successful fetch
      discards it entirely: the result is what a first-time success gives,
      apart from the stale error. */
  lemma FetchRetryAfterFailure(s: State, failure: Response<seq<Todo>>, list: seq<Todo>)
    requires !failure.Ok?
    ensures var retried := FetchTodos(FetchTodos(s, failure), Ok(list));
            retried == FetchTodos(s, Ok(list)).(error := retried.error)
            && retried.todos == list
  {
  }
}
