/** The todo page component: its state, the four handlers that reconcile
    that state with the outcome of an API call, and the due-soon and
    overdue tests used while rendering. Each handler is one atomic step;
    the outcome `fetch` yields for its request is an input. */
module TodoPage {
  import opened Wrappers
  import opened JsValues
  import Api

  /** The draft of the create form (`newTodo`). */
  datatype Draft = Draft(title: string, description: string, dueDate: string, priority: string)

  const EmptyDraft: Draft := Draft("", "", "", "medium")

  const LoadFailed: string := "Failed to load todos"
  const AddFailed: string := "Failed to add todo"
  const UpdateFailed: string := "Failed to update todo"
  const DeleteFailed: string := "Failed to delete todo"

  /** The draft as the object handed to `addTodo`. */
  function DraftValue(d: Draft): (v: Value)
    ensures v.Obj? && v.fields.Keys == {"title", "description", "dueDate", "priority"}
    ensures Field(v, "title") == Str(d.title) && Field(v, "priority") == Str(d.priority)
    ensures Field(v, "description") == Str(d.description) && Field(v, "dueDate") == Str(d.dueDate)
  {
    Obj(map["title" := Str(d.title), "description" := Str(d.description),
            "dueDate" := Str(d.dueDate), "priority" := Str(d.priority)])
  }

  /** What an add posts for a draft: its strings, "pending", and "medium"
      in place of an empty priority. */
  lemma DraftCreateBody(d: Draft)
    ensures Api.CreateBody(DraftValue(d)) == Success(Obj(map[
      "title" := Str(d.title), "description" := Str(d.description), "Status" := Str("pending"),
      "priority" := Str(if d.priority != "" then d.priority else "medium"),
      "dueDate" := Str(d.dueDate)]))
  {
  }

  // ---------------------------------------------------------------------
  // The load's filter object

  /** `{ status: filter === 'all' ? undefined : filter, sortBy, search: searchQuery }`. */
  function LoadFilters(filter: string, sortBy: string, searchQuery: string): (f: Value)
    ensures f.Obj? && Field(f, "priority") == Undefined
    ensures Field(f, "status") == if filter == "all" then Undefined else Str(filter)
    ensures Field(f, "sortBy") == Str(sortBy) && Field(f, "search") == Str(searchQuery)
  {
    Obj(map["status" := if filter == "all" then Undefined else Str(filter),
            "sortBy" := Str(sortBy),
            "search" := Str(searchQuery)])
  }

  /** The load's query parameters: status unless the filter is "all" (or
      empty), then search and sortBy when not empty, always in that order. */
  lemma LoadParams(filter: string, sortBy: string, searchQuery: string)
    ensures Api.QueryParams(LoadFilters(filter, sortBy, searchQuery)) == Success(
      (if filter != "all" && filter != "" then [("status", filter)] else [])
      + (if searchQuery != "" then [("search", searchQuery)] else [])
      + (if sortBy != "" then [("sortBy", sortBy)] else []))
  {
    var f := LoadFilters(filter, sortBy, searchQuery);
    Api.IncludedQueryKeys(f);
    assert Api.Appended(f, "status") == if filter != "all" && filter != "" then [("status", filter)] else [];
    assert Api.Appended(f, "priority") == [];
    assert Api.Appended(f, "search") == if searchQuery != "" then [("search", searchQuery)] else [];
    assert Api.Appended(f, "sortBy") == if sortBy != "" then [("sortBy", sortBy)] else [];
    assert Api.QueryParams(f) == Success(Api.Included(Api.QueryKeys, f));
    assert Api.Appended(f, "status") + Api.Appended(f, "priority") == Api.Appended(f, "status");
  }

  // ---------------------------------------------------------------------
  // List reconciliation

  /** `t._id`, read as undefined on a null entry. */
  function IdOf(t: Value): Value {
    Field(t, "_id")
  }

  /** `todos.map(t => t._id === id ? updated : t)`. */
  function ReplaceById(todos: seq<Value>, id: Value, updated: Value): (r: seq<Value>)
    ensures |r| == |todos|
    ensures forall t :: t in r ==> t == updated || t in todos
  {
    if todos == [] then []
    else [if IdOf(todos[0]) == id then updated else todos[0]] + ReplaceById(todos[1..], id, updated)
  }

  /** Every entry with the id is replaced, every other one kept in place. */
  lemma {:induction false} ReplaceByIdAt(todos: seq<Value>, id: Value, updated: Value)
    ensures |ReplaceById(todos, id, updated)| == |todos|
    ensures forall i :: 0 <= i < |todos| ==>
      ReplaceById(todos, id, updated)[i] == if IdOf(todos[i]) == id then updated else todos[i]
  {
    if todos != [] {
      ReplaceByIdAt(todos[1..], id, updated);
      var r := ReplaceById(todos, id, updated);
      forall i | 0 <= i < |todos|
        ensures r[i] == if IdOf(todos[i]) == id then updated else todos[i]
      {
        if i > 0 { assert r[i] == ReplaceById(todos[1..], id, updated)[i - 1]; }
      }
    }
  }

  /** An id that no entry has leaves the list as it is. */
  lemma ReplaceByIdAbsent(todos: seq<Value>, id: Value, updated: Value)
    requires forall i :: 0 <= i < |todos| ==> IdOf(todos[i]) != id
    ensures ReplaceById(todos, id, updated) == todos
  {
  }

  /** Replacing again with a todo that carries the same id changes nothing. */
  lemma ReplaceByIdIdempotent(todos: seq<Value>, id: Value, updated: Value)
    requires IdOf(updated) == id
    ensures ReplaceById(ReplaceById(todos, id, updated), id, updated) == ReplaceById(todos, id, updated)
  {
  }

  /** `todos.filter(t => t._id !== id)`. */
  function RemoveById(todos: seq<Value>, id: Value): (r: seq<Value>)
    ensures |r| <= |todos|
  {
    if todos == [] then []
    else (if IdOf(todos[0]) != id then [todos[0]] else []) + RemoveById(todos[1..], id)
  }

  /** An entry stays exactly when it was there and has another id. */
  lemma {:induction false} RemoveByIdMembers(todos: seq<Value>, id: Value, t: Value)
    ensures t in RemoveById(todos, id) <==> t in todos && IdOf(t) != id
  {
    if todos != [] {
      RemoveByIdMembers(todos[1..], id, t);
      assert todos == [todos[0]] + todos[1..];
    }
  }

  /** Removal works piecewise, so the remaining entries keep their order. */
  lemma {:induction false} RemoveByIdConcat(a: seq<Value>, b: seq<Value>, id: Value)
    ensures RemoveById(a + b, id) == RemoveById(a, id) + RemoveById(b, id)
  {
    if a != [] {
      RemoveByIdConcat(a[1..], b, id);
      assert (a + b)[1..] == a[1..] + b;
    } else {
      assert a + b == b;
    }
  }

  /** An id that no entry has leaves the list as it is. */
  lemma {:induction false} RemoveByIdAbsent(todos: seq<Value>, id: Value)
    requires forall i :: 0 <= i < |todos| ==> IdOf(todos[i]) != id
    ensures RemoveById(todos, id) == todos
  {
    if todos != [] {
      RemoveByIdAbsent(todos[1..], id);
    }
  }

  /** Deleting the same id twice leaves what deleting it once left. */
  lemma RemoveByIdIdempotent(todos: seq<Value>, id: Value)
    ensures RemoveById(RemoveById(todos, id), id) == RemoveById(todos, id)
  {
    var once := RemoveById(todos, id);
    forall i | 0 <= i < |once| ensures IdOf(once[i]) != id {
      RemoveByIdMembers(todos, id, once[i]);
    }
    RemoveByIdAbsent(once, id);
  }

  /** `todos.find(t => t._id === id)`: the first entry with the id. */
  function FindById(todos: seq<Value>, id: Value): (r: Option<Value>)
    ensures r.Some? ==> r.value in todos && IdOf(r.value) == id
    ensures r.None? ==> forall i :: 0 <= i < |todos| ==> IdOf(todos[i]) != id
    ensures r.Some? ==> exists i :: 0 <= i < |todos| && todos[i] == r.value && IdOf(todos[i]) == id &&
                                    (forall j :: 0 <= j < i ==> IdOf(todos[j]) != id)
  {
    if todos == [] then None
    else if IdOf(todos[0]) == id then Some(todos[0])
    else FindById(todos[1..], id)
  }

  /** The status a toggle asks for: "pending" from "completed", otherwise "completed". */
  function NextStatus(current: Value): (s: string)
    ensures s == "pending" || s == "completed"
    ensures s == "pending" <==> current == Str("completed")
  {
    if current == Str("completed") then "pending" else "completed"
  }

  /** The `updates` a toggle sends, `{ Status: newStatus }`, or None when
      the lookup throws: no entry has the id, or the entry found is null
      or undefined. */
  function ToggleUpdates(todos: seq<Value>, id: Value): (r: Option<Value>)
    ensures r.Some? <==> FindById(todos, id).Some? && !IsNullish(FindById(todos, id).value)
    ensures r.Some? ==>
      (FindById(todos, id).Some? &&
       r.value == Obj(map["Status" := Str(NextStatus(Field(FindById(todos, id).value, "Status")))]))
  {
    match FindById(todos, id)
    case None => None
    case Some(t) =>
      match Get(t, "Status")
      case Failure(_) => None
      case Success(status) => Some(Obj(map["Status" := Str(NextStatus(status))]))
  }

  // ---------------------------------------------------------------------
  // The add guard: `!newTodo.title.trim()`

  /** The characters `String.prototype.trim` removes: WhiteSpace and
      LineTerminator of ECMA-262. */
  predicate IsJsWhitespace(c: char) {
    c == ' ' || c == '\t' || c == '\n' || c == '\U{000B}' || c == '\U{000C}' || c == '\r'
    || c == '\U{00A0}' || c == '\U{1680}' || ('\U{2000}' <= c <= '\U{200A}')
    || c == '\U{2028}' || c == '\U{2029}' || c == '\U{202F}' || c == '\U{205F}'
    || c == '\U{3000}' || c == '\U{FEFF}'
  }

  /** `s` without its leading whitespace. */
  function TrimStart(s: string): string {
    if s != [] && IsJsWhitespace(s[0]) then TrimStart(s[1..]) else s
  }

  /** `s` without its trailing whitespace. */
  function TrimEnd(s: string): string {
    if s != [] && IsJsWhitespace(s[|s| - 1]) then TrimEnd(s[..|s| - 1]) else s
  }

  /** `s.trim()`. */
  function Trim(s: string): (r: string)
    ensures |r| <= |s|
    ensures r != "" ==> !IsJsWhitespace(r[0]) && !IsJsWhitespace(r[|r| - 1])
  {
    TrimStartSpec(s);
    TrimEndSpec(TrimStart(s));
    TrimEnd(TrimStart(s))
  }

  /** TrimStart drops a whitespace prefix and nothing more. */
  lemma {:induction false} TrimStartSpec(s: string)
    ensures var r := TrimStart(s);
      |r| <= |s| && r == s[|s| - |r|..]
      && (forall i :: 0 <= i < |s| - |r| ==> IsJsWhitespace(s[i]))
      && (r != [] ==> !IsJsWhitespace(r[0]))
  {
    if s != [] && IsJsWhitespace(s[0]) {
      var t := s[1..];
      TrimStartSpec(t);
      var r := TrimStart(t);
      assert TrimStart(s) == r;
      assert t[|t| - |r|..] == s[|s| - |r|..];
      forall i | 0 <= i < |s| - |r| ensures IsJsWhitespace(s[i]) {
        if i > 0 { assert s[i] == t[i - 1]; }
      }
    }
  }

  /** TrimEnd drops a whitespace suffix and nothing more. */
  lemma {:induction false} TrimEndSpec(s: string)
    ensures var r := TrimEnd(s);
      |r| <= |s| && r == s[..|r|]
      && (forall i :: |r| <= i < |s| ==> IsJsWhitespace(s[i]))
      && (r != [] ==> !IsJsWhitespace(r[|r| - 1]))
  {
    if s != [] && IsJsWhitespace(s[|s| - 1]) {
      var t := s[..|s| - 1];
      TrimEndSpec(t);
      var r := TrimEnd(t);
      assert TrimEnd(s) == r;
      assert t[..|r|] == s[..|r|];
      forall i | |r| <= i < |s| ensures IsJsWhitespace(s[i]) {
        if i < |s| - 1 { assert s[i] == t[i]; }
      }
    }
  }

  /** A title is rejected exactly when every character of it is whitespace. */
  lemma BlankIffAllWhitespace(s: string)
    ensures Trim(s) == "" <==> forall i :: 0 <= i < |s| ==> IsJsWhitespace(s[i])
  {
    var t := TrimStart(s);
    TrimStartSpec(s);
    TrimEndSpec(t);
    if t != [] {
      assert t[0] == s[|s| - |t|];
    }
  }

  // ---------------------------------------------------------------------
  // Due soon and overdue

  const DayMs: int := 1000 * 60 * 60 * 24

  /** `Math.ceil(a / b)` for integers. */
  function CeilDiv(a: int, b: int): (q: int)
    requires b > 0
    ensures b * (q - 1) < a <= b * q
  {
    var f := (-a) / b;
    assert -a == b * f + (-a) % b;
    -f
  }

  /** The whole days test of the banner, `0 <= ceil(diff / day) <= 3`,
      holds exactly for a difference in (-1 day, 3 days]. */
  lemma DueSoonWindow(diff: int)
    ensures 0 <= CeilDiv(diff, DayMs) <= 3 <==> -DayMs < diff <= 3 * DayMs
  {
  }

  /** The test of `todos.some(...)` for one todo; `dateOf` is `new Date(v)`
      as a millisecond count, None for an invalid date. */
  predicate IsDueSoon(t: Value, now: int, dateOf: Value -> Option<int>)
    ensures IsDueSoon(t, now, dateOf) ==>
      Truthy(Field(t, "dueDate")) && dateOf(Field(t, "dueDate")).Some? && Field(t, "Status") != Str("completed")
  {
    var due := Field(t, "dueDate");
    Truthy(due) && match dateOf(due)
      case None => false
      case Some(ms) => 0 <= CeilDiv(ms - now, DayMs) <= 3 && Field(t, "Status") != Str("completed")
  }

  predicate AnyDueSoon(todos: seq<Value>, now: int, dateOf: Value -> Option<int>)
    ensures AnyDueSoon(todos, now, dateOf) ==> |todos| > 0
  {
    exists i :: 0 <= i < |todos| && IsDueSoon(todos[i], now, dateOf)
  }

  /** Due soon, in milliseconds: a truthy due date that parses, falls less
      than a day behind or at most three days ahead, on a todo not completed. */
  lemma DueSoonIff(t: Value, now: int, dateOf: Value -> Option<int>)
    ensures IsDueSoon(t, now, dateOf) <==>
      var due := Field(t, "dueDate");
      Truthy(due) && dateOf(due).Some? && -DayMs < dateOf(due).value - now <= 3 * DayMs
      && Field(t, "Status") != Str("completed")
  {
  }

  /** The overdue highlight: a truthy due date that parses to before now. */
  predicate IsOverdue(t: Value, now: int, dateOf: Value -> Option<int>)
    ensures IsOverdue(t, now, dateOf) ==> Truthy(Field(t, "dueDate")) && dateOf(Field(t, "dueDate")).Some?
  {
    var due := Field(t, "dueDate");
    Truthy(due) && dateOf(due).Some? && dateOf(due).value < now
  }

  /** An open todo overdue by less than a day still counts as due soon;
      one overdue by a day or more never does. */
  lemma OverdueAndDueSoon(t: Value, now: int, dateOf: Value -> Option<int>)
    requires IsOverdue(t, now, dateOf)
    ensures var late := now - dateOf(Field(t, "dueDate")).value;
      IsDueSoon(t, now, dateOf) <==> late < DayMs && Field(t, "Status") != Str("completed")
  {
  }

  /** The banner's list test, in milliseconds. */
  lemma AnyDueSoonIff(todos: seq<Value>, now: int, dateOf: Value -> Option<int>)
    ensures AnyDueSoon(todos, now, dateOf) <==>
      exists i :: 0 <= i < |todos| && Truthy(Field(todos[i], "dueDate"))
        && dateOf(Field(todos[i], "dueDate")).Some?
        && -DayMs < dateOf(Field(todos[i], "dueDate")).value - now <= 3 * DayMs
        && Field(todos[i], "Status") != Str("completed")
  {
  }

  lemma NoneDueSoonWhenEmpty(now: int, dateOf: Value -> Option<int>)
    ensures !AnyDueSoon([], now, dateOf)
  {
  }

  // ---------------------------------------------------------------------
  // The component

  class TodoApp {
    var todos: seq<Value>
    var newTodo: Draft
    var loading: bool
    var error: Option<string>
    var filter: string
    var searchQuery: string
    var sortBy: string
    var showReminders: bool

    /** The initial `useState` values. */
    constructor ()
      ensures todos == [] && newTodo == EmptyDraft && loading && error == None
      ensures filter == "all" && searchQuery == "" && sortBy == "dateCreated" && showReminders
    {
      todos := [];
      newTodo := EmptyDraft;
      loading := true;
      error := None;
      filter := "all";
      searchQuery := "";
      sortBy := "dateCreated";
      showReminders := true;
    }

    /** Whether the "due in the next 3 days" banner shows. */
    predicate DueSoonBanner(now: int, dateOf: Value -> Option<int>)
      reads this
      ensures DueSoonBanner(now, dateOf) ==> showReminders && |todos| > 0
    {
      showReminders && AnyDueSoon(todos, now, dateOf)
    }

    /** `loadTodos`: the list is replaced by what `getAllTodos` resolves to,
        which never throws, so the error is always cleared. */
    method LoadTodos(outcome: Api.Outcome, encode: string -> string) returns (request: Api.Request)
      modifies this
      ensures var f := LoadFilters(old(filter), old(sortBy), old(searchQuery));
        Api.GetAllTodosRequest(f, encode) == Success(request)
        && todos == Api.GetAllTodos(f, outcome)
      ensures error == None && !loading
      ensures newTodo == old(newTodo) && filter == old(filter) && searchQuery == old(searchQuery)
        && sortBy == old(sortBy) && showReminders == old(showReminders)
    {
      loading := true;
      var filters := LoadFilters(filter, sortBy, searchQuery);
      var sent := Api.GetAllTodosRequest(filters, encode);
      request := sent.value;
      todos := Api.GetAllTodos(filters, outcome);
      error := None;
      loading := false;
    }

    /** `handleAddTodo`: a blank title makes no call and changes nothing;
        otherwise the created todo is appended and the draft reset, or the
        error is set and everything else kept. */
    method HandleAddTodo(outcome: Api.Outcome) returns (request: Option<Api.Request>)
      modifies this
      ensures request.None? <==> Trim(old(newTodo.title)) == ""
      ensures request.Some? ==> Api.AddTodoRequest(DraftValue(old(newTodo))) == Success(request.value)
      ensures request.None? ==> todos == old(todos) && newTodo == old(newTodo) && error == old(error)
      ensures request.Some? ==>
        match Api.AddTodo(DraftValue(old(newTodo)), outcome)
        case Success(added) => todos == old(todos) + [added] && newTodo == EmptyDraft && error == None
        case Failure(_) => todos == old(todos) && newTodo == old(newTodo) && error == Some(AddFailed)
      ensures loading == old(loading) && filter == old(filter) && searchQuery == old(searchQuery)
        && sortBy == old(sortBy) && showReminders == old(showReminders)
    {
      if Trim(newTodo.title) == "" {
        return None;
      }
      var body := DraftValue(newTodo);
      var sent := Api.AddTodoRequest(body);
      request := Some(sent.value);
      var result := Api.AddTodo(body, outcome);
      match result
      case Success(added) =>
        todos := todos + [added];
        newTodo := EmptyDraft;
        error := None;
      case Failure(_) =>
        error := Some(AddFailed);
    }

    /** `handleToggleTodo`: asks the backend for the opposite status and, on
        success, puts its answer in place of every entry with the id. A
        lookup that throws makes no call; it and a failed call set the error. */
    method HandleToggleTodo(id: Value, outcome: Api.Outcome) returns (request: Option<Api.Request>)
      modifies this
      ensures var updates := ToggleUpdates(old(todos), id);
        request == if updates.None? then None else Some(Api.UpdateTodoRequest(id, updates.value))
      ensures request.None? ==> todos == old(todos) && error == Some(UpdateFailed)
      ensures request.Some? ==>
        match Api.UpdateTodo(outcome)
        case Success(updated) => todos == ReplaceById(old(todos), id, updated) && error == None
        case Failure(_) => todos == old(todos) && error == Some(UpdateFailed)
      ensures newTodo == old(newTodo) && loading == old(loading) && filter == old(filter)
        && searchQuery == old(searchQuery) && sortBy == old(sortBy) && showReminders == old(showReminders)
    {
      var updates := ToggleUpdates(todos, id);
      if updates.None? {
        error := Some(UpdateFailed);
        return None;
      }
      request := Some(Api.UpdateTodoRequest(id, updates.value));
      var result := Api.UpdateTodo(outcome);
      match result
      case Success(updated) =>
        todos := ReplaceById(todos, id, updated);
        error := None;
      case Failure(_) =>
        error := Some(UpdateFailed);
    }

    /** `handleDeleteTodo`: on success the entries with the id go, the rest
        stay in order; on failure only the error changes. */
    method HandleDeleteTodo(id: Value, outcome: Api.Outcome) returns (request: Api.Request)
      modifies this
      ensures request == Api.DeleteTodoRequest(id)
      ensures match Api.DeleteTodo(outcome)
        case Success(_) => todos == RemoveById(old(todos), id) && error == None
        case Failure(_) => todos == old(todos) && error == Some(DeleteFailed)
      ensures newTodo == old(newTodo) && loading == old(loading) && filter == old(filter)
        && searchQuery == old(searchQuery) && sortBy == old(sortBy) && showReminders == old(showReminders)
    {
      request := Api.DeleteTodoRequest(id);
      var result := Api.DeleteTodo(outcome);
      match result
      case Success(_) =>
        todos := RemoveById(todos, id);
        error := None;
      case Failure(_) =>
        error := Some(DeleteFailed);
    }
  }
}
