/** The state of the `App` component and its handlers, each as one atomic
    transition. The server, `localStorage` and the confirm dialog are
    inputs: a handler takes the state and the server's outcome and returns
    the new state together with the requests it sent. */
module App {
  import opened Wrappers
  import opened Text
  import opened TodoList

  datatype User = User(username: string)

  datatype LoginForm = LoginForm(username: string, password: string)

  const EmptyLoginForm := LoginForm("", "")

  /** The two `localStorage` keys, `token` and `user`; None is a missing key.
      The user record is kept as a value, not as its JSON text. */
  datatype Storage = Storage(token: Option<string>, user: Option<User>)

  const EmptyStorage := Storage(None, None)

  /** The component's `useState` slots plus the storage it reads. */
  datatype State = State(
    user: Option<User>,
    todos: seq<Todo>,
    loading: bool,
    error: string,
    loginForm: LoginForm,
    newTodo: string,
    editingTodo: Option<TodoId>,
    editTitle: string,
    storage: Storage)

  /** What the login endpoint returns on success. */
  datatype Session = Session(token: string, user: User)

  /** The outcome of one `fetch`: an ok status with its parsed body, a
      non-ok status with the body's optional `error` string, or an
      exception (no response, or a body that does not parse). */
  datatype Response<T> = Ok(payload: T) | NotOk(error: Option<string>) | NetworkFailure

  /** The partial update a PUT carries. */
  datatype Patch = SetCompleted(completed: bool) | SetTitle(title: string)

  /** The requests the client sends. `token` is the bearer credential in
      the Authorization header; None is a missing storage key. */
  datatype Request =
    | LoginCall(form: LoginForm)
    | ListCall(token: Option<string>)
    | CreateCall(token: Option<string>, title: string)
    | UpdateCall(token: Option<string>, id: TodoId, patch: Patch)
    | DeleteCall(token: Option<string>, id: TodoId)

  /** A handler's effect: the settled state and the requests, in order. */
  datatype Transition = Transition(state: State, sent: seq<Request>)

  const LoginFailed := "Login failed"
  const LoginNetworkError := "Network error. Please try again."
  const NetworkError := "Network error"
  const FetchFailed := "Failed to fetch todos"
  const AddFailed := "Failed to add todo"
  const UpdateFailed := "Failed to update todo"
  const DeleteFailed := "Failed to delete todo"

  /** JavaScript truthiness of a stored string: present and non-empty. */
  predicate Truthy(v: Option<string>) {
    v.Some? && v.value != ""
  }

  /** `data.error || fallback`: the server's message when it is a
      non-empty string, the fallback otherwise. */
  function ServerMessageOr(e: Option<string>, fallback: string): (m: string)
    ensures Truthy(e) ==> m == e.value
    ensures !Truthy(e) ==> m == fallback
    ensures fallback != "" ==> m != ""
  {
    if Truthy(e) then e.value else fallback
  }

  /** The state right after the first render. */
  function Initial(storage: Storage): (s: State)
    ensures s.user.None? && s.todos == [] && !s.loading && s.error == ""
    ensures s.loginForm == EmptyLoginForm && s.newTodo == ""
    ensures s.editingTodo.None? && s.editTitle == ""
    ensures s.storage == storage
  {
    State(None, [], false, "", EmptyLoginForm, "", None, "", storage)
  }

  /** The mount effect: a stored session is adopted, and its list fetched,
      only when both keys are present (the token non-empty); nothing but
      `user` changes. */
  function Restore(s: State): (r: Transition)
    ensures r.sent != [] <==> Truthy(s.storage.token) && s.storage.user.Some?
    ensures r.sent != [] ==> r.state.user == s.storage.user && r.sent == [ListCall(s.storage.token)]
    ensures r.sent == [] ==> r.state == s
    ensures r.state == s.(user := r.state.user)
  {
    var token := s.storage.token;
    var userData := s.storage.user;
    if Truthy(token) && userData.Some? then
      Transition(s.(user := userData), [ListCall(token)])
    else
      Transition(s, [])
  }

  /** Mounting the component on the given storage. */
  function Mount(storage: Storage): (r: Transition)
    ensures r.state.todos == [] && r.state.error == ""
    ensures r.state.user.Some? <==> Truthy(storage.token) && storage.user.Some?
  {
    Restore(Initial(storage))
  }

  /** `handleLogin`: the error is cleared as the request starts; on success
      the session is stored and adopted, the form emptied and a list fetch
      with the new token follows; on failure the session is untouched and
      the error is set. `loading` is false once it settles. */
  function Login(s: State, resp: Response<Session>): (r: Transition)
    ensures !r.state.loading
    ensures r.state == s.(user := r.state.user, storage := r.state.storage,
                          loginForm := r.state.loginForm, error := r.state.error,
                          loading := false)
    ensures |r.sent| >= 1 && r.sent[0] == LoginCall(s.loginForm)
    ensures resp.Ok? ==>
      && r.state.user == Some(resp.payload.user)
      && r.state.storage == Storage(Some(resp.payload.token), Some(resp.payload.user))
      && r.state.loginForm == EmptyLoginForm
      && r.state.error == ""
      && r.sent == [LoginCall(s.loginForm), ListCall(Some(resp.payload.token))]
    ensures !resp.Ok? ==>
      && r.state.user == s.user
      && r.state.storage == s.storage
      && r.state.loginForm == s.loginForm
      && r.state.error != ""
      && r.sent == [LoginCall(s.loginForm)]
    ensures resp.NotOk? ==> r.state.error == ServerMessageOr(resp.error, LoginFailed)
    ensures resp.NetworkFailure? ==> r.state.error == LoginNetworkError
  {
    var started := s.(loading := true, error := "");
    var call := LoginCall(s.loginForm);
    var settled :=
      match resp
      case Ok(session) =>
        Transition(
          started.(storage := Storage(Some(session.token), Some(session.user)),
                   user := Some(session.user),
                   loginForm := EmptyLoginForm),
          [call, ListCall(Some(session.token))])
      case NotOk(e) =>
        Transition(started.(error := ServerMessageOr(e, LoginFailed)), [call])
      case NetworkFailure =>
        Transition(started.(error := LoginNetworkError), [call]);
    settled.(state := settled.state.(loading := false))
  }

  /** `handleLogout`: both storage keys removed, session, list and error
      cleared; no request. */
  function Logout(s: State): (r: Transition)
    ensures r.sent == []
    ensures r.state.user.None? && r.state.todos == [] && r.state.error == ""
    ensures r.state.storage.token.None? && r.state.storage.user.None?
    ensures r.state == s.(user := r.state.user, todos := r.state.todos,
                          error := r.state.error, storage := r.state.storage)
  {
    var storage := s.storage.(token := None).(user := None);
    Transition(s.(storage := storage, user := None, todos := [], error := ""), [])
  }

  /** `fetchTodos`, once the response to a ListCall arrives: on success the
      list is the server's list and nothing else survives; on failure the
      list is kept and the error set. */
  function FetchTodos(s: State, resp: Response<seq<Todo>>): (r: State)
    ensures r == s.(todos := r.todos, error := r.error)
    ensures resp.Ok? ==> r.todos == resp.payload && r.error == s.error
    ensures resp.Ok? ==> forall t :: t in s.todos && t !in resp.payload ==> t !in r.todos
    ensures !resp.Ok? ==> r.todos == s.todos
    ensures resp.NotOk? ==> r.error == FetchFailed
    ensures resp.NetworkFailure? ==> r.error == NetworkError
  {
    match resp
    case Ok(data) => s.(todos := data)
    case NotOk(_) => s.(error := FetchFailed)
    case NetworkFailure => s.(error := NetworkError)
  }

  /** `handleAddTodo`: a blank input does nothing at all. Otherwise the
      untrimmed input is posted; on success the server's item is appended
      after all prior items and the input cleared; on failure the list and
      input are kept and the error set. The error is not cleared on
      success. */
  function AddTodo(s: State, resp: Response<Todo>): (r: Transition)
    ensures IsBlank(s.newTodo) ==> r == Transition(s, [])
    ensures !IsBlank(s.newTodo) ==>
      r.sent == [CreateCall(s.storage.token, s.newTodo)] && !r.state.loading
    ensures r.state == s.(todos := r.state.todos, newTodo := r.state.newTodo,
                          error := r.state.error, loading := r.state.loading)
    ensures !IsBlank(s.newTodo) && resp.Ok? ==>
      && |r.state.todos| == |s.todos| + 1
      && r.state.todos[..|s.todos|] == s.todos
      && r.state.todos[|s.todos|] == resp.payload
      && r.state.newTodo == ""
      && r.state.error == s.error
    ensures !IsBlank(s.newTodo) && !resp.Ok? ==>
      r.state.todos == s.todos && r.state.newTodo == s.newTodo
    ensures !IsBlank(s.newTodo) && resp.NotOk? ==>
      r.state.error == ServerMessageOr(resp.error, AddFailed)
    ensures !IsBlank(s.newTodo) && resp.NetworkFailure? ==> r.state.error == NetworkError
  {
    if IsBlank(s.newTodo) then Transition(s, [])
    else
      var call := CreateCall(s.storage.token, s.newTodo);
      var settled :=
        match resp
        case Ok(todo) => s.(todos := s.todos + [todo], newTodo := "")
        case NotOk(e) => s.(error := ServerMessageOr(e, AddFailed))
        case NetworkFailure => s.(error := NetworkError);
      Transition(settled.(loading := false), [call])
  }

  /** `handleToggleComplete`: the PUT carries only the negated flag; on
      success every item with the todo's id becomes the server's object and
      all others stay in place; on failure only the error changes. */
  function ToggleComplete(s: State, todo: Todo, resp: Response<Todo>): (r: Transition)
    ensures r.sent == [UpdateCall(s.storage.token, todo.id, SetCompleted(!todo.completed))]
    ensures r.sent[0].patch.completed != todo.completed
    ensures r.state == s.(todos := r.state.todos, error := r.state.error)
    ensures resp.Ok? ==>
      && |r.state.todos| == |s.todos|
      && (forall i :: 0 <= i < |s.todos| && s.todos[i].id == todo.id ==> r.state.todos[i] == resp.payload)
      && (forall i :: 0 <= i < |s.todos| && s.todos[i].id != todo.id ==> r.state.todos[i] == s.todos[i])
      && r.state.error == s.error
    ensures !resp.Ok? ==> r.state.todos == s.todos
    ensures resp.NotOk? ==> r.state.error == UpdateFailed
    ensures resp.NetworkFailure? ==> r.state.error == NetworkError
  {
    var call := UpdateCall(s.storage.token, todo.id, SetCompleted(!todo.completed));
    match resp
    case Ok(updated) => Transition(s.(todos := ReplaceById(s.todos, todo.id, updated)), [call])
    case NotOk(_) => Transition(s.(error := UpdateFailed), [call])
    case NetworkFailure => Transition(s.(error := NetworkError), [call])
  }

  /** `handleEditTodo`: a blank draft does nothing and the draft stays open.
      Otherwise the untrimmed draft is sent; on success the items with the
      todo's id become the server's object and the draft closes; on failure
      the list and the draft are kept so the user can retry. */
  function EditTodo(s: State, todo: Todo, resp: Response<Todo>): (r: Transition)
    ensures IsBlank(s.editTitle) ==> r == Transition(s, [])
    ensures !IsBlank(s.editTitle) ==>
      r.sent == [UpdateCall(s.storage.token, todo.id, SetTitle(s.editTitle))]
    ensures r.state == s.(todos := r.state.todos, error := r.state.error,
                          editingTodo := r.state.editingTodo, editTitle := r.state.editTitle)
    ensures !IsBlank(s.editTitle) && resp.Ok? ==>
      && |r.state.todos| == |s.todos|
      && (forall i :: 0 <= i < |s.todos| && s.todos[i].id == todo.id ==> r.state.todos[i] == resp.payload)
      && (forall i :: 0 <= i < |s.todos| && s.todos[i].id != todo.id ==> r.state.todos[i] == s.todos[i])
      && r.state.editingTodo.None? && r.state.editTitle == ""
      && r.state.error == s.error
    ensures !IsBlank(s.editTitle) && !resp.Ok? ==>
      && r.state.todos == s.todos
      && r.state.editingTodo == s.editingTodo
      && r.state.editTitle == s.editTitle
    ensures !IsBlank(s.editTitle) && resp.NotOk? ==> r.state.error == UpdateFailed
    ensures !IsBlank(s.editTitle) && resp.NetworkFailure? ==> r.state.error == NetworkError
  {
    if IsBlank(s.editTitle) then Transition(s, [])
    else
      var call := UpdateCall(s.storage.token, todo.id, SetTitle(s.editTitle));
      match resp
      case Ok(updated) =>
        Transition(
          s.(todos := ReplaceById(s.todos, todo.id, updated), editingTodo := None, editTitle := ""),
          [call])
      case NotOk(_) => Transition(s.(error := UpdateFailed), [call])
      case NetworkFailure => Transition(s.(error := NetworkError), [call])
  }

  /** `handleDeleteTodo`: a declined confirmation does nothing at all.
      Otherwise the DELETE is sent; on success the list is filtered by the
      todo's id, so no item with the id is left and every other item
      survives in its original order; on failure only the error changes. */
  function DeleteTodo(s: State, todo: Todo, confirmed: bool, resp: Response<()>): (r: Transition)
    ensures !confirmed ==> r == Transition(s, [])
    ensures confirmed ==> r.sent == [DeleteCall(s.storage.token, todo.id)]
    ensures r.state == s.(todos := r.state.todos, error := r.state.error)
    ensures confirmed && resp.Ok? ==>
      && r.state.todos == RemoveById(s.todos, todo.id)
      && todo.id !in Ids(r.state.todos)
      && (forall t :: t in s.todos && t.id != todo.id ==> t in r.state.todos)
      && (forall t :: t in r.state.todos ==> t in s.todos)
      && |r.state.todos| == |s.todos| - CountId(s.todos, todo.id)
      && r.state.error == s.error
    ensures confirmed && !resp.Ok? ==> r.state.todos == s.todos
    ensures confirmed && resp.NotOk? ==> r.state.error == DeleteFailed
    ensures confirmed && resp.NetworkFailure? ==> r.state.error == NetworkError
  {
    if !confirmed then Transition(s, [])
    else
      var call := DeleteCall(s.storage.token, todo.id);
      match resp
      case Ok(_) =>
        RemoveByIdMembers(s.todos, todo.id);
        Transition(s.(todos := RemoveById(s.todos, todo.id)), [call])
      case NotOk(_) => Transition(s.(error := DeleteFailed), [call])
      case NetworkFailure => Transition(s.(error := NetworkError), [call])
  }

  /** `startEdit`: the draft becomes this todo's id and title, whatever
      draft was open before. */
  function StartEdit(s: State, todo: Todo): (r: State)
    ensures r.editingTodo == Some(todo.id) && r.editTitle == todo.title
    ensures r == s.(editingTodo := r.editingTodo, editTitle := r.editTitle)
  {
    s.(editingTodo := Some(todo.id), editTitle := todo.title)
  }

  /** `cancelEdit`: no draft, empty text. */
  function CancelEdit(s: State): (r: State)
    ensures r.editingTodo.None? && r.editTitle == ""
    ensures r == s.(editingTodo := r.editingTodo, editTitle := r.editTitle)
  {
    s.(editingTodo := None, editTitle := "")
  }
}
